/** UtFileUploadCommandEntity: the upload command of the Ubuntu Touch build.
    Its constructor fixes the remote target and the command's info map; its
    startWork runs a chain of guards, each of which gives up before any later
    step when it fails. Only the file and client guards abort the command; a
    failing base class start, or a failing WebDAV start after the PUT, returns
    false without aborting. */
module UtFileUpload {
  import opened QtString
  import opened Commands
  import WebDavQueue

  /** The lifecycle states of a command entity. */
  datatype EntityState = NotStarted | Running | Succeeded | Aborted | Failed

  /** The steps startWork takes, in the order it takes them. */
  datatype Step =
    | BaseStart          // CommandEntity::startWork()
    | CheckExists        // m_localFile->exists()
    | OpenReadOnly       // m_localFile->open(QFile::ReadOnly)
    | AbortWork          // abortWork()
    | Put(remotePath: string, localPath: string)  // m_client->put(...)
    | WebDavStart        // WebDavCommandEntity::startWork()
    | SetRunning         // setState(RUNNING)

  /** The network reply put hands back. */
  datatype Reply = PutReply(remotePath: string, localPath: string)

  /** What the calls startWork makes would answer: whether the base classes
      allow the start, whether the local file exists and whether it opens. */
  datatype StartEnv = StartEnv(baseStarts: bool, fileExists: bool, fileOpens: bool, webDavStarts: bool)

  /** The guards that must all pass before the upload is put on the wire. */
  predicate GuardsPass(env: StartEnv, hasClient: bool) {
    env.baseStarts && env.fileExists && env.fileOpens && hasClient
  }

  /** The info map of a davPut command whose local file has the given name. */
  function InfoMap(localPath: string, remotePath: string, fileName: string): (info: map<string, string>)
    ensures info.Keys == {"type", "localPath", "remotePath", "fileName", "remoteFile"}
    ensures info["type"] == "davPut"
    ensures info["localPath"] == localPath && info["remotePath"] == remotePath
    ensures info["fileName"] == fileName && info["remoteFile"] == remotePath + fileName
  {
    assert "remotePath"[6] != "remoteFile"[6];
    map["type" := "davPut", "localPath" := localPath, "remotePath" := remotePath,
        "fileName" := fileName, "remoteFile" := remotePath + fileName]
  }

  /** The command's info map: its type, both paths, the local file's name and
      the remote file the upload writes. */
  function UploadInfo(localPath: string, remotePath: string): (info: map<string, string>)
    ensures info.Keys == {"type", "localPath", "remotePath", "fileName", "remoteFile"}
    ensures info["type"] == "davPut"
    ensures info["localPath"] == localPath && info["remotePath"] == remotePath
    ensures info["fileName"] == FileName(localPath)
    ensures info["remoteFile"] == remotePath + info["fileName"]
  {
    InfoMap(localPath, remotePath, FileName(localPath))
  }

  /** The steps startWork takes when every guard passes, in order. */
  function AllSteps(remotePath: string, localPath: string): seq<Step> {
    [BaseStart, CheckExists, OpenReadOnly, Put(remotePath, localPath), WebDavStart, SetRunning]
  }

  /** The steps startWork takes for given answers of the calls it makes:
      which steps occur is StartWorkGuards, their order StartWorkOrder. */
  function StartWorkSteps(env: StartEnv, hasClient: bool, remotePath: string, localPath: string): seq<Step>
  {
    if !env.baseStarts then [BaseStart]
    else if !env.fileExists then [BaseStart, CheckExists, AbortWork]
    else if !env.fileOpens || !hasClient then [BaseStart, CheckExists, OpenReadOnly, AbortWork]
    else if !env.webDavStarts then AllSteps(remotePath, localPath)[..5]
    else AllSteps(remotePath, localPath)
  }

  /** Each step of startWork is taken exactly when the guards before it
      pass; a failing guard other than the first aborts; the file is put at
      most once, to the command's own target. */
  lemma StartWorkGuards(env: StartEnv, hasClient: bool, remotePath: string, localPath: string)
    ensures var steps := StartWorkSteps(env, hasClient, remotePath, localPath);
      && (CheckExists in steps <==> env.baseStarts)
      && (OpenReadOnly in steps <==> env.baseStarts && env.fileExists)
      && (AbortWork in steps <==> env.baseStarts && !GuardsPass(env, hasClient))
      && (Put(remotePath, localPath) in steps <==> GuardsPass(env, hasClient))
      && (forall i :: 0 <= i < |steps| && steps[i].Put? ==> steps[i] == Put(remotePath, localPath))
      && (forall i, j :: 0 <= i < j < |steps| && steps[i].Put? ==> !steps[j].Put?)
      && (WebDavStart in steps <==> GuardsPass(env, hasClient))
      && (SetRunning in steps <==> GuardsPass(env, hasClient) && env.webDavStarts)
  {
    var steps := StartWorkSteps(env, hasClient, remotePath, localPath);
    var all := AllSteps(remotePath, localPath);
    if GuardsPass(env, hasClient) {
      assert steps[..5] == all[..5];
      assert steps[1] == CheckExists && steps[2] == OpenReadOnly;
      assert steps[3] == Put(remotePath, localPath) && steps[4] == WebDavStart;
      assert forall i :: 0 <= i < |steps| && i != 3 ==> !steps[i].Put?;
    } else if env.baseStarts && env.fileExists {
      assert steps[2] == OpenReadOnly;
    } else if env.baseStarts {
      assert steps[1] == CheckExists;
    }
  }

  /** startWork always begins with the base class start and takes its steps
      in the order of AllSteps; when it aborts, that is its last step. */
  lemma StartWorkOrder(env: StartEnv, hasClient: bool, remotePath: string, localPath: string)
    ensures var steps := StartWorkSteps(env, hasClient, remotePath, localPath);
      && 0 < |steps| && steps[0] == BaseStart
      && (AbortWork !in steps ==> steps <= AllSteps(remotePath, localPath))
      && (AbortWork in steps ==>
            steps[|steps| - 1] == AbortWork && steps[..|steps| - 1] <= AllSteps(remotePath, localPath))
  {
  }

  /** The target of the PUT and that of the PROPPATCH the queue adds after an
      upload differ: the PROPPATCH keeps the '/' in front of the file name. */
  lemma PutAndPropPatchTargets(localPath: string, remotePath: string)
    ensures '/' in localPath ==>
      WebDavQueue.PropPatchTarget(remotePath, localPath) ==
      remotePath + "/" + UploadInfo(localPath, remotePath)["fileName"]
    ensures '/' !in localPath ==>
      WebDavQueue.PropPatchTarget(remotePath, localPath) == UploadInfo(localPath, remotePath)["remoteFile"]
  {
    var info := UploadInfo(localPath, remotePath);
    FileNameIsMid(localPath);
  }

  /** Uploading /tmp/a.txt into /remote/dir/ puts the file at
      /remote/dir/a.txt, while the PROPPATCH the queue adds after the upload
      goes to /remote/dir//a.txt. */
  lemma UploadIntoDirectoryTargets()
    ensures UploadInfo("/tmp/a.txt", "/remote/dir/")["remoteFile"] == "/remote/dir/a.txt"
    ensures WebDavQueue.PropPatchTarget("/remote/dir/", "/tmp/a.txt") == "/remote/dir//a.txt"
  {
    var localPath, remoteDir := "/tmp/a.txt", "/remote/dir/";
    assert localPath == "/tmp" + "/" + "a.txt";
    FileNameUnder("/tmp", "a.txt");
    assert FileName(localPath) == "a.txt";
    assert '/' in localPath by { assert localPath[0] == '/'; }
    assert remoteDir + "a.txt" == "/remote/dir/a.txt";
    assert remoteDir + "/" + "a.txt" == "/remote/dir//a.txt";
  }

  class UtFileUploadCommandEntity {
    /** m_localPath; m_localFile is the QFile on this path. */
    const localPath: string
    /** m_remotePath: the remote file the upload writes. */
    const remotePath: string
    /** m_commandInfo. */
    const commandInfo: map<string, string>
    /** m_client; None is a null pointer. */
    const client: Option<Client>
    /** Whether m_localFile is open for reading. */
    var fileOpen: bool
    /** m_reply. */
    var reply: Option<Reply>
    var state: EntityState
    /** Whether abortWork has been called. */
    var aborted: bool
    /** The steps taken so far, oldest first. */
    var trace: seq<Step>

    constructor (localPath: string, remotePath: string, client: Option<Client>)
      ensures this.localPath == localPath && this.client == client
      ensures this.remotePath == remotePath + FileName(localPath)
      ensures commandInfo == UploadInfo(localPath, remotePath)
      ensures this.remotePath == commandInfo["remoteFile"]
      ensures !fileOpen && reply == None && state == NotStarted && !aborted && trace == []
    {
      this.localPath := localPath;
      this.client := client;
      var fileName := FileName(localPath);
      this.remotePath := remotePath + fileName;
      commandInfo := UploadInfo(localPath, remotePath);
      fileOpen := false;
      reply := None;
      state := NotStarted;
      aborted := false;
      trace := [];
    }

    /** CommandEntity::abortWork, as far as this command sees it. */
    method Abort()
      modifies this`aborted, this`trace
      ensures aborted && trace == old(trace) + [AbortWork]
    {
      aborted := true;
      trace := trace + [AbortWork];
    }

    /** Records a step that has no other effect on this command. */
    method Take(step: Step)
      modifies this`trace
      ensures trace == old(trace) + [step]
    {
      trace := trace + [step];
    }

    /** startWork: each guard that fails aborts (except the first, which just
        gives up) and returns false before any later step; when all pass, the
        file is put to the remote target, and the state becomes RUNNING only
        if the WebDAV base class lets the command start. */
    method StartWork(env: StartEnv) returns (ok: bool)
      modifies this
      ensures ok <==> GuardsPass(env, client.Some?) && env.webDavStarts
      ensures trace == old(trace) + StartWorkSteps(env, client.Some?, remotePath, localPath)
      ensures aborted <==> old(aborted) || (env.baseStarts && !GuardsPass(env, client.Some?))
      ensures fileOpen <==> old(fileOpen) || (env.baseStarts && env.fileExists && env.fileOpens)
      ensures reply == if GuardsPass(env, client.Some?) then Some(PutReply(remotePath, localPath)) else old(reply)
      ensures state == if ok then Running else old(state)
    {
      ghost var steps := StartWorkSteps(env, client.Some?, remotePath, localPath);
      Take(BaseStart);
      if !env.baseStarts {
        assert steps == [BaseStart];
        return false;
      }

      Take(CheckExists);
      if !env.fileExists {
        Abort();
        assert steps == [BaseStart, CheckExists, AbortWork];
        return false;
      }

      Take(OpenReadOnly);
      if !env.fileOpens {
        Abort();
        assert steps == [BaseStart, CheckExists, OpenReadOnly, AbortWork];
        return false;
      }
      fileOpen := true;

      if client.None? {
        Abort();
        assert steps == [BaseStart, CheckExists, OpenReadOnly, AbortWork];
        return false;
      }
      Take(Put(remotePath, localPath));
      reply := Some(PutReply(remotePath, localPath));

      Take(WebDavStart);
      if !env.webDavStarts {
        assert steps == AllSteps(remotePath, localPath)[..5];
        return false;
      }

      state := Running;
      Take(SetRunning);
      assert steps == AllSteps(remotePath, localPath);
      return true;
    }
  }
}
