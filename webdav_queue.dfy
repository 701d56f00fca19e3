/** WebDavCommandQueue: the request factories that append commands to the
    tail of the queue, and the settings/client bookkeeping that drops and
    recreates the WebDAV client when the settings change. */
module WebDavQueue {
  import opened QtString
  import opened Commands

  /** Where fileDownloadRequest writes a download: the part of the remote
      path after its last '/', placed in the directory chosen for the MIME
      type. */
  function DownloadDestination(mimeDir: string, remotePath: string): (d: string)
    ensures |mimeDir| < |d| && d[..|mimeDir| + 1] == mimeDir + "/"
  {
    mimeDir + "/" + Mid(remotePath, LastIndexOf(remotePath, '/') + 1)
  }

  /** The download lands directly under the MIME directory and keeps the
      remote file's name. */
  lemma DestinationKeepsName(mimeDir: string, remotePath: string)
    ensures DownloadDestination(mimeDir, remotePath) == mimeDir + "/" + FileName(remotePath)
    ensures FileName(DownloadDestination(mimeDir, remotePath)) == FileName(remotePath)
  {
    var name, mid := FileName(remotePath), Mid(remotePath, LastIndexOf(remotePath, '/') + 1);
    assert DownloadDestination(mimeDir, remotePath) == mimeDir + "/" + mid;
    FileNameIsMid(remotePath);
    assert mid == name;
    FileNameUnder(mimeDir, name);
  }

  /** The commands fileDownloadRequest appends, in order, for a download
      written to destination. */
  function DownloadPlan(remotePath: string, destination: string, open: bool,
                        lastModified: Option<int>, client: Option<Client>): (plan: seq<Command>)
    ensures |plan| == 1 + (if lastModified.Some? then 1 else 0) + (if open then 1 else 0)
    ensures plan[0] == Dav(Download(remotePath, destination), client)
    ensures forall i :: 1 <= i < |plan| ==>
      plan[i].StdFunction? && plan[i].action.destination == destination
    ensures lastModified.Some? <==>
      (exists i :: 0 <= i < |plan| && plan[i].StdFunction? && plan[i].action.SetLocalMtime?)
    ensures lastModified.Some? ==> plan[1].action == SetLocalMtime(destination, lastModified.value)
    ensures open <==>
      (exists i :: 0 <= i < |plan| && plan[i].StdFunction? && plan[i].action.OpenFile?)
    ensures open ==> plan[|plan| - 1].action == OpenFile(destination)
  {
    var plan := [Dav(Download(remotePath, destination), client)]
      + (if lastModified.Some? then [StdFunction(SetLocalMtime(destination, lastModified.value))] else [])
      + (if open then [StdFunction(OpenFile(destination))] else []);
    assert lastModified.Some? ==> plan[1].action.SetLocalMtime?;
    assert open ==> plan[|plan| - 1].action.OpenFile?;
    assert lastModified.None? ==> forall i :: 1 <= i < |plan| ==> plan[i].action.OpenFile?;
    assert !open ==> forall i :: 1 <= i < |plan| ==> plan[i].action.SetLocalMtime?;
    plan
  }

  /** The remote path PROPPATCH is sent to after an upload: the remote path
      followed by the local path's last component with its leading '/'. */
  function PropPatchTarget(remotePath: string, localPath: string): (t: string)
    ensures '/' in localPath ==> t == remotePath + "/" + FileName(localPath)
    ensures '/' !in localPath ==> t == remotePath + localPath
  {
    remotePath + SlashSuffix(localPath)
  }

  /** The properties the PROPPATCH sets: DAV: lastmodified, in seconds. */
  function LastModifiedProps(ms: int): (props: PropValues)
    ensures props.Keys == {"DAV:"}
    ensures props["DAV:"].Keys == {"lastmodified"}
    ensures props["DAV:"]["lastmodified"] == MsToSeconds(ms)
  {
    map["DAV:" := map["lastmodified" := MsToSeconds(ms)]]
  }

  /** The commands fileUploadRequest appends, in order. */
  function UploadPlan(localPath: string, remotePath: string, lastModified: Option<int>,
                      client: Option<Client>): (plan: seq<Command>)
    ensures |plan| == if lastModified.Some? then 2 else 1
    ensures plan[0] == Dav(Upload(localPath, remotePath), client)
    ensures forall i :: 1 <= i < |plan| ==> plan[i].Dav? && plan[i].op.PropPatch?
    ensures lastModified.Some? ==>
      plan[1] == Dav(PropPatch(PropPatchTarget(remotePath, localPath),
                               LastModifiedProps(lastModified.value)), client)
  {
    [Dav(Upload(localPath, remotePath), client)]
      + if lastModified.Some? then
          [Dav(PropPatch(PropPatchTarget(remotePath, localPath), LastModifiedProps(lastModified.value)), client)]
        else []
  }

  class WebDavCommandQueue {
    /** m_settings; None is a null pointer. */
    var settings: Option<SettingsRef>
    /** m_client; None is a null pointer. */
    var client: Option<Client>
    /** The settings object whose settingsChanged signal is connected to the
        client-recreating handler, if any. */
    var watched: Option<SettingsRef>
    /** How many clients getNewWebDav has made for this queue. */
    var clientsMade: nat
    /** How many times this queue has emitted settingsChanged. */
    var settingsChangedEmitted: nat
    /** The commands enqueued so far, oldest first. */
    var queue: seq<Command>

    ghost predicate Valid()
      reads this
    {
      (client.Some? ==> client.value.id < clientsMade) &&
      (watched.Some? ==> watched == settings)
    }

    constructor (s: Option<SettingsRef>)
      ensures Valid()
      ensures settings == s && client == Some(Client(0, s)) && clientsMade == 1
      ensures watched == None && settingsChangedEmitted == 0 && queue == []
    {
      settings := s;
      client := Some(Client(0, s));
      clientsMade := 1;
      watched := None;
      settingsChangedEmitted := 0;
      queue := [];
    }

    /** getNewWebDav: a client no earlier call has returned. */
    method NewClient(s: Option<SettingsRef>) returns (c: Client)
      modifies this`clientsMade
      ensures c == Client(old(clientsMade), s) && clientsMade == old(clientsMade) + 1
    {
      c := Client(clientsMade, s);
      clientsMade := clientsMade + 1;
    }

    /** The handler connected to settingsChanged: drop the client, and make a
        new one only when there are settings to make it from. */
    method OnSettingsChanged()
      requires Valid()
      modifies this`client, this`clientsMade
      ensures Valid()
      ensures settings.None? ==> client == None && clientsMade == old(clientsMade)
      ensures settings.Some? ==>
        client == Some(Client(old(clientsMade), settings)) && clientsMade == old(clientsMade) + 1
      ensures old(client).Some? ==> client != old(client)
    {
      if client.Some? {
        client := None;
      }
      if settings.None? {
        return;
      }
      var c := NewClient(settings);
      client := Some(c);
    }

    /** setSettings(v): nothing happens when v is the current settings object;
        otherwise the handler is moved from the old settings object to v, v is
        stored, and the emitted settingsChanged recreates the client. */
    method SetSettings(v: Option<SettingsRef>)
      requires Valid()
      modifies this
      ensures Valid()
      ensures v == old(settings) ==> unchanged(this)
      ensures v != old(settings) ==>
        settings == v && watched == v &&
        settingsChangedEmitted == old(settingsChangedEmitted) + 1 &&
        queue == old(queue) &&
        (v.None? ==> client == None && clientsMade == old(clientsMade)) &&
        (v.Some? ==> client == Some(Client(old(clientsMade), v)) && clientsMade == old(clientsMade) + 1)
    {
      if settings == v {
        return;
      }
      if settings.Some? {
        watched := None;
      }
      settings := v;
      watched := v;
      settingsChangedEmitted := settingsChangedEmitted + 1;
      OnSettingsChanged();
    }

    /** The settings object s emits its own settingsChanged: the handler runs
        only when s is the object setSettings connected it to. */
    method SettingsObjectChanged(s: SettingsRef)
      requires Valid()
      modifies this`client, this`clientsMade
      ensures Valid()
      ensures watched != Some(s) ==> client == old(client) && clientsMade == old(clientsMade)
      ensures watched == Some(s) ==>
        client == Some(Client(old(clientsMade), Some(s))) && clientsMade == old(clientsMade) + 1
    {
      if watched == Some(s) {
        OnSettingsChanged();
      }
    }

    /** CommandQueue::enqueue, as far as building the queue goes: append. */
    method Enqueue(c: Command)
      modifies this`queue
      ensures queue == old(queue) + [c]
    {
      queue := queue + [c];
    }

    method MakeDirectoryRequest(dirName: string) returns (c: Command)
      modifies this`queue
      ensures c == Dav(Mkdir(dirName), client)
      ensures queue == old(queue) + [c]
    {
      c := Dav(Mkdir(dirName), client);
      Enqueue(c);
    }

    method RemoveRequest(name: string) returns (c: Command)
      modifies this`queue
      ensures c == Dav(Rm(name), client)
      ensures queue == old(queue) + [c]
    {
      c := Dav(Rm(name), client);
      Enqueue(c);
    }

    method MoveRequest(from: string, to: string) returns (c: Command)
      modifies this`queue
      ensures c == Dav(Move(from, to), client)
      ensures queue == old(queue) + [c]
    {
      c := Dav(Move(from, to), client);
      Enqueue(c);
    }

    method CopyRequest(from: string, to: string) returns (c: Command)
      modifies this`queue
      ensures c == Dav(Copy(from, to), client)
      ensures queue == old(queue) + [c]
    {
      c := Dav(Copy(from, to), client);
      Enqueue(c);
    }

    method DirectoryListingRequest(path: string) returns (c: Command)
      modifies this`queue
      ensures c == Dav(List(path), client)
      ensures queue == old(queue) + [c]
    {
      c := Dav(List(path), client);
      Enqueue(c);
    }

    /** fileDownloadRequest: the download, then the callbacks, all enqueued at
        once; destinationFromMime stands for FilePathUtil::destinationFromMIME. */
    method FileDownloadRequest(remotePath: string, mimeType: string,
                               destinationFromMime: string -> string,
                               open: bool, lastModified: Option<int>) returns (c: Command)
      modifies this`queue
      ensures queue == old(queue) +
        DownloadPlan(remotePath, DownloadDestination(destinationFromMime(mimeType), remotePath),
                     open, lastModified, client)
      ensures c == queue[|old(queue)|]
    {
      var name := Mid(remotePath, LastIndexOf(remotePath, '/') + 1);
      var destination := destinationFromMime(mimeType) + "/" + name;
      ghost var plan := DownloadPlan(remotePath, destination, open, lastModified, client);

      c := Dav(Download(remotePath, destination), client);
      Enqueue(c);

      if lastModified.Some? {
        Enqueue(StdFunction(SetLocalMtime(destination, lastModified.value)));
      }
      assert queue == old(queue) + plan[..1 + (if lastModified.Some? then 1 else 0)];

      if open {
        Enqueue(StdFunction(OpenFile(destination)));
      }
      assert queue == old(queue) + plan;
    }

    /** fileUploadRequest: the upload, then a PROPPATCH of its lastmodified
        property when a timestamp is given. */
    method FileUploadRequest(localPath: string, remotePath: string,
                             lastModified: Option<int>) returns (c: Command)
      modifies this`queue
      ensures queue == old(queue) + UploadPlan(localPath, remotePath, lastModified, client)
      ensures c == queue[|old(queue)|]
    {
      c := Dav(Upload(localPath, remotePath), client);
      Enqueue(c);

      if lastModified.Some? {
        var props := map["DAV:" := map["lastmodified" := MsToSeconds(lastModified.value)]];
        var fileName := Mid(localPath, LastIndexOf(localPath, '/'));
        Enqueue(Dav(PropPatch(remotePath + fileName, props), client));
      }
    }
  }
}
