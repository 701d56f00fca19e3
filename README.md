# WebDAV command queue: request factories and upload start-up

This project models two parts of harbour-owncloud's WebDAV command engine in Dafny.

- **The queue-building layer of `WebDavCommandQueue`.** Each request factory appends a fixed
  pattern of command descriptors to the tail of the queue:
  - `makeDirectoryRequest`, `removeRequest`, `moveRequest`, `copyRequest` and
    `directoryListingRequest` each append one command.
  - `fileDownloadRequest` appends the download. It then appends a local-mtime callback and an
    open callback, each only when requested.
  - `fileUploadRequest` appends the upload. It then appends a PROPPATCH of `DAV:` `lastmodified`
    when a timestamp is given.

  The layer also covers the settings/client bookkeeping. Setting the same settings object again
  does nothing. Any other change drops the WebDAV client, and a new client is made only when the
  new settings are non-null.
- **`UtFileUploadCommandEntity`.** Its constructor derives the remote target and the command's
  info map. Its `startWork` is a chain of guards:
  1. the base class start;
  2. the local file exists;
  3. the local file opens read-only;
  4. a client is present;
  5. the PUT is issued;
  6. the WebDAV base class start;
  7. the state becomes `RUNNING`.

  A failing guard gives up before any later step. Only guards 2-4 (file exists, file opens, client
  present) abort the command. A failing base class start (1) or WebDAV base class start (6) returns
  `false` without aborting.

Layout:
- `qstring.dfy` (module `QtString`) holds the QString/QFileInfo path operations: `lastIndexOf`, `mid` and the last path component.
- `commands.dfy` (module `Commands`) holds the command descriptors as one tagged variant per command entity class. It also holds the millisecond-to-second conversion and what the two deferred download callbacks do when they run.
- `webdav_queue.dfy` (module `WebDavQueue`) holds the `WebDavCommandQueue` class. Its request methods are proved against the specification functions `DownloadPlan` and `UploadPlan`, whose contracts state the order and number of commands appended.
- `ut_upload.dfy` (module `UtFileUpload`) holds the upload entity class. `StartWork` is proved against the step function `StartWorkSteps`; the lemmas `StartWorkGuards` and `StartWorkOrder` state which steps it takes and in what order.

Behaviour worth noting:
- **When the download callbacks are queued.** The download's follow-up callbacks are enqueued when the request is made, whatever the download's outcome. When they run they only check that the destination file exists.
- **How the timestamp is converted.** `lastModified / 1000` is C++ integer division, which truncates toward zero. For timestamps before 1970 that are not whole seconds, the result is one second later than floor division (`MsToSecondsVsFloor`).
- **Where the PROPPATCH goes.** The PROPPATCH that `fileUploadRequest` adds keeps the `/` in front of the local file name, so its target is `<remotePath>/<fileName>` (for a local path without `/`, `<remotePath><localPath>`). `UtFileUploadCommandEntity` PUTs to `<remotePath><fileName>` instead. For `/tmp/a.txt` and `/remote/dir/`, that entity's PUT target is `/remote/dir/a.txt`, while the PROPPATCH target is `/remote/dir//a.txt` (`UploadIntoDirectoryTargets`, `PutAndPropPatchTargets`). The queue itself builds the generic `FileUploadCommandEntity` (webdavcommandqueue.cpp:176-177), whose PUT target is not part of this model. The comparison is therefore between the PROPPATCH target and the Ubuntu Touch entity's target.
- **When the WebDAV start fails after the PUT.** If `WebDavCommandEntity::startWork` refuses, `UtFileUploadCommandEntity::startWork` returns `false` without aborting. By then the PUT has already been issued, so the reply is kept and the local file stays open (`StartWork`, `StartWorkGuards`).
- **How the upload entity is built.** As written, the upload entity's constructor is named `FileUploadCommandEntity` and initialises `m_settings` from a `settings` that is not among its parameters. The model follows the evident intent: it sets `m_localPath`, `m_localFile`, `m_remotePath` and `m_commandInfo`, and it keeps the `client` argument as the entity's `m_client`.

## Model

| member | source | states |
|---|---|---|
| QtString.LastIndexOf | src/common/src/webdavcommandqueue.cpp:126 | the result is -1 exactly when the character does not occur; otherwise the character is at that index |
| QtString.LastIndexOfIsLast | src/common/src/webdavcommandqueue.cpp:126 | no occurrence of the character follows the index `lastIndexOf` returns |
| QtString.MidIsSuffix | src/common/src/webdavcommandqueue.cpp:126 | `mid(position)` with the default length is the suffix of the string from that position on, and the whole string for a negative position (the case line 191 reaches when the path has no `/`) |
| QtString.FileName | src/common/src/webdavcommandqueue.cpp:126 | the last path component contains no `/` and is no longer than the path |
| QtString.FileNameIsLastComponent | src/common/src/webdavcommandqueue.cpp:126 | the file name is a suffix of the path without `/`, and it is either the whole path or preceded by a `/` |
| QtString.FileNameIsMid | src/common/src/webdavcommandqueue.cpp:126 | `path.mid(path.lastIndexOf("/") + 1)` is exactly the last path component |
| QtString.LastComponentUnique | src/common/src/commands/ubuntutouch/utfileuploadcommandentity.cpp:14 | a path has at most one last component, so `QFileInfo::fileName` and the download's `mid`/`lastIndexOf` name agree |
| QtString.FileNameUnder | src/common/src/webdavcommandqueue.cpp:127 | a `/`-free name placed under a directory is that path's file name |
| QtString.SlashSuffix | src/common/src/webdavcommandqueue.cpp:191 | `localPath.mid(localPath.lastIndexOf('/'))` is `/` followed by the file name when the path has a `/`, and the whole path otherwise |
| Commands.MsToSeconds | src/common/src/webdavcommandqueue.cpp:188 | ms/1000 truncated toward zero: `1000*s <= ms < 1000*s + 1000` for non-negative ms, `1000*s - 1000 < ms <= 1000*s` for negative ms |
| Commands.MsToSecondsVsFloor | src/common/src/webdavcommandqueue.cpp:144 | the truncated seconds equal floor division except for negative non-whole seconds, where they are one more |
| Commands.RunCallback | src/common/src/webdavcommandqueue.cpp:137-163 | both callbacks do nothing when the destination is missing; the mtime callback sets actime to now and modtime to the timestamp divided by 1000 with truncation toward zero (MsToSeconds); the open callback runs `xdg-open` on the destination |
| WebDavQueue.DownloadDestination | src/common/src/webdavcommandqueue.cpp:126-127 | the destination is `destinationFromMIME(mimeType)` followed by `/` and more; DestinationKeepsName says what follows |
| WebDavQueue.DestinationKeepsName | src/common/src/webdavcommandqueue.cpp:126-127 | the destination computed with `mid` after `lastIndexOf("/")` is `destinationFromMIME(mimeType) + "/"` followed by the remote path's last component, so it has the same file name as the remote path |
| WebDavQueue.DownloadPlan | src/common/src/webdavcommandqueue.cpp:129-168 | exactly 1 + [lastModified valid] + [open] commands; the download comes first; a SetLocalMtime exists iff the timestamp is valid and comes right after the download; an OpenFile exists iff `open` and comes last; all callbacks target the download's destination |
| WebDavQueue.PropPatchTarget | src/common/src/webdavcommandqueue.cpp:191-194 | the target is `remotePath + "/" + fileName(localPath)` when the local path has a `/`, else `remotePath + localPath` |
| WebDavQueue.LastModifiedProps | src/common/src/webdavcommandqueue.cpp:184-189 | the props are exactly `{"DAV:" -> {"lastmodified" -> ms/1000}}` |
| WebDavQueue.UploadPlan | src/common/src/webdavcommandqueue.cpp:176-198 | 1 or 2 commands; the upload comes first; a second command exists only when the timestamp is valid, and then it is the PROPPATCH of lastmodified on the PROPPATCH target |
| WebDavQueue.WebDavCommandQueue.constructor | src/common/src/webdavcommandqueue.cpp:25-44 | stores the settings, makes a first client from them, and starts with an empty queue; no settings object is connected yet |
| WebDavQueue.WebDavCommandQueue.NewClient | src/common/src/webdavcommandqueue.cpp:29 | `getNewWebDav` returns a client made from the given settings whose identity no earlier call has returned |
| WebDavQueue.WebDavCommandQueue.OnSettingsChanged | src/common/src/webdavcommandqueue.cpp:32-43 | drops the client; with null settings the client stays null; otherwise the client is a fresh one made from the settings, differing from the old one |
| WebDavQueue.WebDavCommandQueue.SetSettings | src/common/src/webdavcommandqueue.cpp:51-71 | the same value changes nothing and emits nothing; another value is stored and connected, settingsChanged is emitted once, and the client is recreated iff the value is non-null; the queue is untouched |
| WebDavQueue.WebDavCommandQueue.SettingsObjectChanged | src/common/src/webdavcommandqueue.cpp:60-69 | a settings object's own change signal recreates the client only when that object is the connected one |
| WebDavQueue.WebDavCommandQueue.Enqueue | src/common/src/webdavcommandqueue.cpp:78 | `enqueue` appends the command at the tail; the commands already queued are unchanged |
| WebDavQueue.WebDavCommandQueue.MakeDirectoryRequest | src/common/src/webdavcommandqueue.cpp:73-80 | appends exactly one Mkdir of the given name, bound to the current client, and returns it; the old queue is an unchanged prefix |
| WebDavQueue.WebDavCommandQueue.RemoveRequest | src/common/src/webdavcommandqueue.cpp:82-89 | appends exactly one Rm of the given name and returns it; the old queue is an unchanged prefix |
| WebDavQueue.WebDavCommandQueue.MoveRequest | src/common/src/webdavcommandqueue.cpp:91-98 | appends exactly one Move(from, to) and returns it; the old queue is an unchanged prefix |
| WebDavQueue.WebDavCommandQueue.CopyRequest | src/common/src/webdavcommandqueue.cpp:100-107 | appends exactly one Copy(from, to) and returns it; the old queue is an unchanged prefix |
| WebDavQueue.WebDavCommandQueue.DirectoryListingRequest | src/common/src/webdavcommandqueue.cpp:109-117 | appends exactly one List of the given path and returns it; the old queue is an unchanged prefix |
| WebDavQueue.WebDavCommandQueue.FileDownloadRequest | src/common/src/webdavcommandqueue.cpp:119-169 | appends exactly the DownloadPlan for the destination under the MIME directory (which keeps the remote file name, DestinationKeepsName), and returns the download |
| WebDavQueue.WebDavCommandQueue.FileUploadRequest | src/common/src/webdavcommandqueue.cpp:171-201 | appends exactly the UploadPlan and returns the upload |
| UtFileUpload.InfoMap | src/common/src/commands/ubuntutouch/utfileuploadcommandentity.cpp:19-25 | the map has exactly the keys type, localPath, remotePath, fileName and remoteFile; type is `davPut` |
| UtFileUpload.UploadInfo | src/common/src/commands/ubuntutouch/utfileuploadcommandentity.cpp:14-25 | the five keys are exactly present; fileName is `QFileInfo::fileName` of the local path (FileName, its last component by FileNameIsLastComponent); remoteFile is remotePath followed by fileName |
| UtFileUpload.StartWorkGuards | src/common/src/commands/ubuntutouch/utfileuploadcommandentity.cpp:28-59 | the existence check happens iff the base start succeeds; the open happens iff the file also exists; abort happens iff a later guard fails; exactly one PUT, to the remote target, happens iff all guards pass, and so does the WebDAV base start; RUNNING is set iff the WebDAV start also succeeds |
| UtFileUpload.StartWorkOrder | src/common/src/commands/ubuntutouch/utfileuploadcommandentity.cpp:28-59 | the steps begin with the base start and follow the order base start, exists, open, PUT, WebDAV start, RUNNING; an abort is the last step and follows a prefix of that order |
| UtFileUpload.PutAndPropPatchTargets | src/common/src/webdavcommandqueue.cpp:191-194 | for a local path with a `/`, the PROPPATCH target is the entity's remote directory, then `/`, then the file name, which is one `/` more than the PUT target |
| UtFileUpload.UploadIntoDirectoryTargets | src/common/src/commands/ubuntutouch/utfileuploadcommandentity.cpp:16 | `/tmp/a.txt` into `/remote/dir/` is PUT to `/remote/dir/a.txt` and PROPPATCHed at `/remote/dir//a.txt` |
| UtFileUpload.UtFileUploadCommandEntity.constructor | src/common/src/commands/ubuntutouch/utfileuploadcommandentity.cpp:7-26 | m_remotePath is remotePath plus the local file's name and equals the info map's remoteFile; the entity starts not started, not aborted, with its file closed and no reply |
| UtFileUpload.UtFileUploadCommandEntity.StartWork | src/common/src/commands/ubuntutouch/utfileuploadcommandentity.cpp:28-59 | returns true iff every guard and the WebDAV start pass; takes exactly the StartWorkSteps, whose guards and order StartWorkGuards and StartWorkOrder state; aborted iff a guard after the base start failed; the reply is the PUT's iff all guards pass; the state becomes RUNNING only on success and is otherwise unchanged |

## Left out

- **Queue draining and execution order.** Dequeuing, starting the next command and completion notification are left out, because `CommandQueue` and the `CommandEntity` lifecycle are not part of this model. `enqueue` is modelled as an append.
- **The transfer entity.** Progress, directory creation, mtime and cancel logic are left out: common/src/transferentry.h only declares them, and its implementation is not part of this model.
- **The base-class calls in `startWork`.** `CommandEntity::startWork` and `WebDavCommandEntity::startWork` are inputs: their outcomes are given as booleans. `abortWork` only records that the command was aborted.
- **Filesystem I/O.** `QFile::exists`, `QFile::open`, `utime` and `time(NULL)` are inputs (booleans and an integer), not effects. A failing `utime` only logs a warning, so it is not modelled.
- **Network calls.** `QWebdav::put` is recorded as a step and a reply value. No network behaviour is modelled.
- **`getNewWebDav`.** It is modelled as handing out a fresh client identity. The constructor calls it even with null settings, as the source does. Whether it can return null is not modelled.
- **`getWebdav()`.** Its definition is not part of this model. It is taken to return `m_client`, so each WebDAV command records the client that was current when it was made.
- **`FilePathUtil::destinationFromMIME`.** It is a function parameter of `FileDownloadRequest`.
- **The `xdg-open` launch.** It is a `RunCommand` effect value; the external process is not modelled.
- **`QDateTime`.** It is an optional count of milliseconds since the epoch. The 64-bit range is not modelled because dividing by 1000 cannot overflow.
- RunCallback: `SetFileTimes.actime` and `modtime` are unbounded integers, but webdavcommandqueue.cpp:143-144 stores `time(NULL)` and the quotient in the `time_t` fields of `struct utimbuf`. On 32-bit targets such as armv7hl, `time_t` is 32 bits wide, so times after January 2038 are narrowed there. The model does not capture that narrowing, because the width depends on the build target.
- **Freed clients.** Recreating the client deletes the old one (`delete this->m_client`, webdavcommandqueue.cpp:34 and :63), but commands already in the queue still hold a pointer to it. In the model those commands keep a `Client` value that stays valid, so the dangling pointer is not captured.
- **Qt signal/slot plumbing.** Emitting `settingsChanged` is modelled as a direct call of the connected handler. The object ownership tree and `qDebug`/`qWarning` logging are left out.
- **`settings()`.** The getter only returns `m_settings`, which is the `settings` field itself.
