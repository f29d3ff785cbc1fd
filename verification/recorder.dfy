/** The screen recorder's ticket protocol. `start_recording`, `stop_recording`
    and `status` share one persisted ticket `{pid, path, fps, started_at}`; the
    operating system is abstracted as the set of live process ids, `Popen` as a
    fresh pid or a failure, and the file system and network as parameters. The
    two recorder files differ only in where the video is uploaded (`Variant`). */
module Recorder {
  import opened Wrappers
  import opened Text
  import opened Multipart

  /** The JSON value under `"pid"`: absent, present but not an integer, or an
      integer. */
  datatype PidField = NoPid | OtherPid | IntPid(pid: int)

  datatype Ticket = Ticket(pid: PidField, path: Option<string>, fps: Option<int>, startedAt: Option<string>)

  /** The `{}` written when a recording stops. */
  const EmptyTicket := Ticket(NoPid, None, None, None)

  /** The state file: missing, not valid JSON, or a saved ticket. */
  datatype StateFile = Missing | Unreadable | Saved(ticket: Ticket)

  /** The ticket as the recorder sees it: a missing or unreadable file reads as `{}`. */
  function Load(f: StateFile): Ticket {
    if f.Saved? then f.ticket else EmptyTicket
  }

  /** `_pid_alive`: a signal-0 probe succeeds, which needs an integer pid of a
      live process. */
  predicate PidAlive(p: PidField, live: set<int>) {
    p.IntPid? && p.pid in live
  }

  // ---------------------------------------------------------------------------
  // Start parameters
  // ---------------------------------------------------------------------------

  const DefaultFps := 5
  const DefaultReplayDir := "/replays"

  /** `int(fps or os.getenv("CUA_REPLAY_FPS", 5))`; `None` is the `ValueError`
      raised for an environment value that is not an integer literal. */
  function FpsValue(fps: Option<int>, envFps: Option<string>): (r: Option<int>)
    ensures fps.Some? && fps.value != 0 ==> r == Some(fps.value)
    ensures (fps.None? || fps.value == 0) && envFps.None? ==> r == Some(DefaultFps)
    ensures (fps.None? || fps.value == 0) && envFps.Some? ==> r == ParseInt(envFps.value)
  {
    if fps.Some? && fps.value != 0 then fps
    else if envFps.None? then Some(DefaultFps)
    else ParseInt(envFps.value)
  }

  /** A frame rate given through the environment as a decimal is used as is. */
  lemma FpsFromEnvironment(n: nat)
    ensures FpsValue(None, Some(Decimal(n))) == Some(n)
    ensures FpsValue(Some(0), Some(Decimal(n))) == Some(n)
  {
    ParseDecimal(n);
  }

  /** The output directory: the argument when non-empty, else `REPLAY_DIR`, else
      `/replays`. */
  function OutputDir(outputDir: Option<string>, replayDirEnv: Option<string>): string {
    if outputDir.Some? && outputDir.value != [] then outputDir.value
    else replayDirEnv.GetOr(DefaultReplayDir)
  }

  function SessionFile(stamp: string): string {
    "session_" + stamp + ".mp4"
  }

  /** `out_dir / f"session_{stamp}.mp4"`: an empty directory (or `.`) is the
      current one, and the path is then the bare file name. */
  function OutputPath(dir: string, stamp: string): string {
    if dir == [] || dir == "." then SessionFile(stamp) else dir + "/" + SessionFile(stamp)
  }

  /** The uploaded file name is the session file name, whatever the directory. */
  lemma OutputPathBasename(dir: string, stamp: string)
    requires '/' !in stamp
    ensures Basename(OutputPath(dir, stamp)) == SessionFile(stamp)
  {
    assert '/' !in SessionFile(stamp) by {
      var f := SessionFile(stamp);
      forall i | 0 <= i < |f| ensures f[i] != '/' {
        if 8 <= i < 8 + |stamp| {
          assert f[i] == stamp[i - 8];
        }
      }
    }
    if dir == [] || dir == "." {
      BasenameOfName(SessionFile(stamp));
    } else {
      BasenameOfJoin(dir, SessionFile(stamp));
    }
  }

  // ---------------------------------------------------------------------------
  // Upload target and outcome
  // ---------------------------------------------------------------------------

  const RemoteUploadUrl := "https://qai-ashy.vercel.app/upload-video"
  const LocalUploadUrl := "http://localhost:3000/upload-video"

  /** `backend/agents/record.py` takes an optional `upload_url`;
      `backend/record_lib.py` always uploads to the local server. */
  datatype Variant = AgentRecorder(uploadUrl: Option<string>) | LibRecorder

  /** Where the video goes: a non-empty `upload_url` overrides the fixed default;
      the result is never empty, so the source's `and _url` guard never fails. */
  function UploadUrl(v: Variant): (url: string)
    ensures url != []
    ensures v.AgentRecorder? && v.uploadUrl.Some? && v.uploadUrl.value != [] ==> url == v.uploadUrl.value
    ensures v.AgentRecorder? && (v.uploadUrl.None? || v.uploadUrl.value == []) ==> url == RemoteUploadUrl
    ensures v.LibRecorder? ==> url == LocalUploadUrl
  {
    match v
    case LibRecorder => LocalUploadUrl
    case AgentRecorder(u) => if u.Some? && u.value != [] then u.value else RemoteUploadUrl
  }

  /** The recorded file on disk: absent, present but unreadable, or its bytes. */
  datatype FileOnDisk = Absent | ReadError | Contents(bytes: seq<byte>)

  /** What the upload server answers: a transport error or a response body. */
  datatype NetReply = NetError | Reply(body: string)

  /** The `upload` field of a stop result: `{"ok": False}` when no upload was
      tried, an error, or the server's response. */
  datatype Upload = NotAttempted | UploadFailed | Uploaded(response: string)

  /** An upload is tried only for a non-empty path that exists on disk. */
  predicate WillUpload(path: Option<string>, file: FileOnDisk) {
    path.Some? && path.value != [] && !file.Absent?
  }

  /** The requests a stop sends: one, when the upload is tried and the file can
      be read. */
  function SentRequests(v: Variant, path: Option<string>, hex: string, file: FileOnDisk): (sent: seq<Request>)
    ensures |sent| <= 1
    ensures |sent| == 1 <==> WillUpload(path, file) && file.Contents?
  {
    if WillUpload(path, file) && file.Contents? then
      [UploadRequest(UploadUrl(v), Boundary(hex), Basename(path.value), file.bytes)]
    else []
  }

  function UploadOutcome(path: Option<string>, file: FileOnDisk, reply: NetReply): (u: Upload)
    ensures u.NotAttempted? <==> !WillUpload(path, file)
    ensures u.Uploaded? <==> WillUpload(path, file) && file.Contents? && reply.Reply?
  {
    if !WillUpload(path, file) then NotAttempted
    else if file.ReadError? || reply.NetError? then UploadFailed
    else Uploaded(reply.body)
  }

  /** The upload after a stop: tried only for a non-empty path that exists; a
      read or transport error becomes the outcome, never an exception. Returns
      the outcome and the requests sent. */
  method PostRecording(v: Variant, path: Option<string>, hex: string, file: FileOnDisk, reply: NetReply)
      returns (upload: Upload, sent: seq<Request>)
    ensures upload == UploadOutcome(path, file, reply)
    ensures sent == SentRequests(v, path, hex, file)
  {
    upload, sent := NotAttempted, [];
    if path.Some? && path.value != [] && !file.Absent? {
      if file.ReadError? {
        upload := UploadFailed;
      } else {
        var req := UploadRequest(UploadUrl(v), Boundary(hex), Basename(path.value), file.bytes);
        sent := [req];
        upload := if reply.NetError? then UploadFailed else Uploaded(reply.body);
      }
    }
  }

  /** Every request a stop sends goes to the chosen URL, carries the video bytes
      framed by a valid boundary, and declares the body's true length. */
  lemma SentRequestsWellFormed(v: Variant, path: Option<string>, hex: string, file: FileOnDisk)
    requires IsUuidHex(hex)
    ensures forall req :: req in SentRequests(v, path, hex, file) ==>
      req.url == UploadUrl(v) &&
      ParseInt(req.contentLength) == Some(|req.body|) &&
      ExtractFile(req.body, Boundary(hex), Basename(path.value)) == Some(file.bytes) &&
      ValidBoundary(Boundary(hex))
  {
    BoundaryValid(hex);
    forall req | req in SentRequests(v, path, hex, file)
      ensures req.url == UploadUrl(v)
      ensures ParseInt(req.contentLength) == Some(|req.body|)
      ensures ExtractFile(req.body, Boundary(hex), Basename(path.value)) == Some(file.bytes)
    {
      UploadRequestConsistent(UploadUrl(v), Boundary(hex), Basename(path.value), file.bytes);
    }
  }

  // ---------------------------------------------------------------------------
  // Results
  // ---------------------------------------------------------------------------

  /** `start_recording`'s result. `InvalidFps` is the `ValueError` that escapes
      when the frame rate cannot be parsed. */
  datatype StartResult =
    | AlreadyRecording(priorPath: Option<string>, priorPid: int)
    | Started(path: string, pid: int, fps: int)
    | LaunchFailed
    | InvalidFps

  /** `stop_recording`'s result; `StopFailed` is the `ok: False` of a SIGTERM
      that raised. */
  datatype StopResult = NotRecording | StopFailed | Stopped(path: Option<string>, upload: Upload)

  /** `status()`'s result; its `ok` is always true and is not represented. */
  datatype StatusReport = StatusReport(running: bool, path: Option<string>, pid: PidField, fps: Option<int>)

  const MaxPolls := 20

  /** Liveness probes made after SIGTERM by a process that still answers the
      first `exitProbe` probes: the loop stops at the first probe that finds it
      gone, and after `MaxPolls` in any case. */
  function PollCount(exitProbe: nat): (n: nat)
    ensures 1 <= n <= MaxPolls
    ensures exitProbe < MaxPolls ==> n == exitProbe + 1
    ensures exitProbe >= MaxPolls ==> n == MaxPolls
  {
    if exitProbe < MaxPolls then exitProbe + 1 else MaxPolls
  }

  // ---------------------------------------------------------------------------
  // The recorder
  // ---------------------------------------------------------------------------

  class Recorder {
    /** `/tmp/cua_recorder/state.json`. */
    var state: StateFile
    /** Process ids for which a signal-0 probe succeeds. */
    var live: set<int>
    /** SIGTERMs sent, in order. */
    var signals: seq<int>
    /** Liveness probes made while waiting for a signalled process to exit. */
    var probes: nat
    /** Upload requests sent, in order. */
    var requests: seq<Request>

    constructor (state0: StateFile, live0: set<int>)
      ensures state == state0 && live == live0
      ensures signals == [] && probes == 0 && requests == []
    {
      state := state0;
      live := live0;
      signals := [];
      probes := 0;
      requests := [];
    }

    /** `status()`: `running` exactly when the ticket's pid is an integer and alive. */
    method Status() returns (s: StatusReport)
      ensures s.running <==> PidAlive(Load(state).pid, live)
      ensures s.path == Load(state).path && s.pid == Load(state).pid && s.fps == Load(state).fps
    {
      var t := Load(state);
      var running := false;
      if t.pid.IntPid? {
        running := t.pid.pid in live;
      }
      s := StatusReport(running, t.path, t.pid, t.fps);
    }

    /** `start_recording`. The environment supplies `spawn` (the pid `Popen`
        gives, `None` when it raises) and `writeOk` (whether the ticket is
        written); `stamp` and `startedAt` are the two `strftime` values. */
    method Start(outputDir: Option<string>, fps: Option<int>, envFps: Option<string>,
                 replayDirEnv: Option<string>, stamp: string, startedAt: string,
                 spawn: Option<int>, writeOk: bool) returns (r: StartResult)
      modifies this
      ensures signals == old(signals) && probes == old(probes) && requests == old(requests)
      ensures PidAlive(Load(old(state)).pid, old(live)) ==>
        r == AlreadyRecording(Load(old(state)).path, Load(old(state)).pid.pid) &&
        state == old(state) && live == old(live)
      ensures !PidAlive(Load(old(state)).pid, old(live)) && FpsValue(fps, envFps).None? ==>
        r == InvalidFps && state == old(state) && live == old(live)
      ensures !PidAlive(Load(old(state)).pid, old(live)) && FpsValue(fps, envFps).Some? && spawn.None? ==>
        r == LaunchFailed && state == old(state) && live == old(live)
      ensures !PidAlive(Load(old(state)).pid, old(live)) && FpsValue(fps, envFps).Some? && spawn.Some? ==>
        var path := OutputPath(OutputDir(outputDir, replayDirEnv), stamp);
        var f := FpsValue(fps, envFps).value;
        r == Started(path, spawn.value, f) &&
        live == old(live) + {spawn.value} &&
        state == (if writeOk then Saved(Ticket(IntPid(spawn.value), Some(path), Some(f), Some(startedAt)))
                  else old(state))
    {
      var prior := Load(state);
      if prior.pid.IntPid? && prior.pid.pid in live {
        return AlreadyRecording(prior.path, prior.pid.pid);
      }
      var fpsVal := FpsValue(fps, envFps);
      if fpsVal.None? {
        return InvalidFps;
      }
      var path := OutputPath(OutputDir(outputDir, replayDirEnv), stamp);
      if spawn.None? {
        return LaunchFailed;
      }
      var pid := spawn.value;
      live := live + {pid};
      if writeOk {
        state := Saved(Ticket(IntPid(pid), Some(path), Some(fpsVal.value), Some(startedAt)));
      }
      r := Started(path, pid, fpsVal.value);
    }

    /** The poll loop after SIGTERM: probe, stop at the first probe that finds
        the process gone, otherwise sleep and probe again, `MaxPolls` times at
        most. Nothing is force-killed. */
    method AwaitExit(exitProbe: nat) returns (polls: nat)
      modifies this
      ensures polls == PollCount(exitProbe)
      ensures probes == old(probes) + polls
      ensures state == old(state) && live == old(live)
      ensures signals == old(signals) && requests == old(requests)
    {
      polls := 0;
      while polls < MaxPolls
        invariant polls <= exitProbe && polls <= MaxPolls
        invariant probes == old(probes) + polls
        invariant state == old(state) && live == old(live)
        invariant signals == old(signals) && requests == old(requests)
      {
        probes := probes + 1;
        var stillAlive := polls < exitProbe;
        polls := polls + 1;
        if !stillAlive {
          break;
        }
      }
    }

    /** `stop_recording`. The environment supplies `signalOk` (whether SIGTERM
        can be sent), `exitProbe` (how many probes still find the process
        alive), `writeOk`, the UUID hex of the boundary, the recorded file and
        the server's reply. */
    method Stop(v: Variant, signalOk: bool, exitProbe: nat, writeOk: bool, hex: string,
                file: FileOnDisk, reply: NetReply) returns (r: StopResult)
      modifies this
      ensures !PidAlive(Load(old(state)).pid, old(live)) ==>
        r == NotRecording && state == old(state) && live == old(live) &&
        signals == old(signals) && probes == old(probes) && requests == old(requests)
      ensures PidAlive(Load(old(state)).pid, old(live)) && !signalOk ==>
        r == StopFailed && state == old(state) && live == old(live) &&
        signals == old(signals) && probes == old(probes) && requests == old(requests)
      ensures PidAlive(Load(old(state)).pid, old(live)) && signalOk ==>
        var t := Load(old(state));
        signals == old(signals) + [t.pid.pid] &&
        probes == old(probes) + PollCount(exitProbe) &&
        live == (if exitProbe < MaxPolls then old(live) - {t.pid.pid} else old(live)) &&
        state == (if writeOk then Saved(EmptyTicket) else old(state)) &&
        requests == old(requests) + SentRequests(v, t.path, hex, file) &&
        r == Stopped(t.path, UploadOutcome(t.path, file, reply))
    {
      var t := Load(state);
      if !t.pid.IntPid? {
        return NotRecording;
      }
      var pid := t.pid.pid;
      if pid !in live {
        return NotRecording;
      }
      if !signalOk {
        return StopFailed;
      }
      signals := signals + [pid];
      var polls := AwaitExit(exitProbe);
      if exitProbe < MaxPolls {
        live := live - {pid};
      }
      var path := t.path;
      if writeOk {
        state := Saved(EmptyTicket);
      }
      var upload, sent := PostRecording(v, path, hex, file, reply);
      requests := requests + sent;
      r := Stopped(path, upload);
    }
  }

  /** While a recording runs, a second start is refused and launches nothing. */
  method StartTwice(rec: Recorder, outputDir: Option<string>, stamp: string, startedAt: string,
                    pid: int, pid2: int)
      returns (first: StartResult, second: StartResult)
    modifies rec
    ensures first.Started? || first.AlreadyRecording?
    ensures first.Started? ==> second == AlreadyRecording(Some(first.path), first.pid)
    ensures first.AlreadyRecording? ==> second == first
  {
    first := rec.Start(outputDir, None, None, None, stamp, startedAt, Some(pid), true);
    second := rec.Start(outputDir, None, None, None, stamp, startedAt, Some(pid2), true);
  }

  /** A stop that clears the ticket lets the next start launch a new recording,
      even when the old process has not exited. */
  method RestartAfterStop(rec: Recorder, v: Variant, exitProbe: nat, hex: string, file: FileOnDisk,
                          reply: NetReply, stamp: string, startedAt: string, pid: int)
      returns (stopped: StopResult, started: StartResult)
    modifies rec
    ensures stopped.Stopped? ==> started.Started? && started.pid == pid
    ensures stopped.Stopped? ==> rec.state == Saved(Ticket(IntPid(pid), Some(started.path), Some(DefaultFps), Some(startedAt)))
  {
    stopped := rec.Stop(v, true, exitProbe, true, hex, file, reply);
    started := rec.Start(None, None, None, None, stamp, startedAt, Some(pid), true);
  }
}
