/** The commands the WebDAV queue holds, as values: one tagged variant per
    command entity class, the client each WebDAV command was bound to, and
    what the two deferred callbacks of a download do when they run. */
module Commands {

  /** A nullable reference: None stands for a null pointer. */
  datatype Option<T> = None | Some(value: T)

  /** The identity of a NextcloudSettingsBase object. */
  datatype SettingsRef = SettingsRef(id: nat)

  /** A WebDAV client as getNewWebDav makes it: id tells apart the clients
      made at different times, settings is the object it was built from. */
  datatype Client = Client(id: nat, settings: Option<SettingsRef>)

  /** QWebdav::PropValues: namespace -> property name -> value. */
  type PropValues = map<string, map<string, int>>

  /** The WebDAV command entities; each performs one protocol request. */
  datatype DavOp =
    | Mkdir(dirName: string)
    | Rm(name: string)
    | Move(from: string, to: string)
    | Copy(from: string, to: string)
    | List(path: string)
    | Download(remotePath: string, destination: string)
    | Upload(localPath: string, remotePath: string)
    | PropPatch(target: string, props: PropValues)

  /** The deferred actions a StdFunctionCommandEntity wraps, with what their
      lambdas capture. */
  datatype Callback =
    | SetLocalMtime(destination: string, lastModifiedMs: int)
    | OpenFile(destination: string)

  /** A queued command: a WebDAV request bound to the client that was current
      when it was made (possibly null), or a deferred callback. */
  datatype Command =
    | Dav(op: DavOp, client: Option<Client>)
    | StdFunction(action: Callback)

  /** qint64 division of a millisecond count by 1000, as C++ does it:
      the quotient is truncated toward zero. */
  function MsToSeconds(ms: int): (secs: int)
    ensures 0 <= ms ==> 0 <= secs && secs * 1000 <= ms < secs * 1000 + 1000
    ensures ms < 0 ==> secs <= 0 && secs * 1000 - 1000 < ms <= secs * 1000
  {
    if 0 <= ms then ms / 1000 else -((-ms) / 1000)
  }

  /** Truncation agrees with floor division except for negative counts that
      are not whole seconds, where it is one second later. */
  lemma MsToSecondsVsFloor(ms: int)
    ensures 0 <= ms || ms % 1000 == 0 ==> MsToSeconds(ms) == ms / 1000
    ensures ms < 0 && ms % 1000 != 0 ==> MsToSeconds(ms) == ms / 1000 + 1
  {
    var q := MsToSeconds(ms);
    if ms < 0 && ms % 1000 != 0 {
      assert ms == (ms / 1000) * 1000 + ms % 1000;
      assert q * 1000 - 1000 < ms < q * 1000;
    } else if ms < 0 {
      assert ms == (ms / 1000) * 1000;
      assert q * 1000 == ms;
    }
  }

  /** What running a callback does to the outside world. */
  datatype Effect =
    | NoEffect
    | SetFileTimes(path: string, actime: int, modtime: int)
    | RunCommand(program: string, args: seq<string>)

  /** Runs a download's deferred callback, given whether its destination
      exists at that moment and the current time in seconds. Both callbacks
      do nothing when the destination is missing; the mtime callback sets the
      access time to now and the modification time to the captured timestamp
      divided by 1000 with truncation (MsToSeconds); the open callback launches xdg-open on the file. */
  function RunCallback(cb: Callback, destinationExists: bool, now: int): (e: Effect)
    ensures !destinationExists <==> e == NoEffect
    ensures e.SetFileTimes? <==> destinationExists && cb.SetLocalMtime?
    ensures e.SetFileTimes? ==>
      e.path == cb.destination && e.actime == now && e.modtime == MsToSeconds(cb.lastModifiedMs)
    ensures e.RunCommand? ==> e.program == "xdg-open" && e.args == [cb.destination]
  {
    if !destinationExists then NoEffect
    else match cb
      case SetLocalMtime(destination, ms) => SetFileTimes(destination, now, MsToSeconds(ms))
      case OpenFile(destination) => RunCommand("xdg-open", [destination])
  }
}
