/** The running check (cmd/start.go:189-218) and the foreground child a command
    launches. The zero-signal probe is the set `live` of process ids the probe
    succeeds on; os.FindProcess cannot fail on Unix. */
module Supervisor {
  import opened Base
  import opened Text
  import Identity

  /** Whether process.Signal(syscall.Signal(0)) succeeds for `pid`. os.Process.Signal
      refuses pid -1 (a released process) and pid 0 (an uninitialised one) before
      any system call; every other pid is probed. */
  predicate Probed(pid: int, live: set<int>) {
    pid != 0 && pid != -1 && pid in live
  }

  /** isProcessRunning: a pid text that does not parse is an error; otherwise the
      process runs when the probe succeeds. */
  function IsProcessRunning(pid: string, live: set<int>): (r: Result<bool>)
    ensures r.Err? <==> ParseInt(pid).None?
    ensures r.Err? ==> r.error == BadNumber(pid)
    ensures r.Ok? ==> (r.value <==> ParseInt(pid).value in live && ParseInt(pid).value != 0 && ParseInt(pid).value != -1)
  {
    match ParseInt(pid)
    case None => Err(BadNumber(pid))
    case Some(p) => Ok(Probed(p, live))
  }

  /** isContainerRunning: false when the pid file is absent or its content is not a
      running pid; the error of isProcessRunning is discarded. */
  function IsContainerRunning(pidFile: Option<string>, live: set<int>): (r: bool)
    ensures r <==> pidFile.Some? && ParseInt(pidFile.value).Some? && ParseInt(pidFile.value).value in live
                   && ParseInt(pidFile.value).value != 0 && ParseInt(pidFile.value).value != -1
  {
    match pidFile
    case None => false
    case Some(text) =>
      var probe := IsProcessRunning(text, live);
      probe.Ok? && probe.value
  }

  /** The pid start writes, strconv.Itoa of a live pid, reads as running. */
  lemma RecordedPidRunning(pid: int, live: set<int>)
    requires 0 < pid <= MaxInt64 && pid in live
    ensures IsContainerRunning(Some(Itoa(pid)), live)
  {
    ParseItoa(pid);
  }

  /** A pid file holding "0" or "-1" never reads as running, whatever is alive. */
  lemma UnprobedPidsNeverRun(live: set<int>)
    ensures !IsContainerRunning(Some("0"), live)
    ensures !IsContainerRunning(Some("-1"), live)
  {
    ParseItoa(0);
    ParseItoa(-1);
    assert Itoa(0) == "0";
    assert Itoa(-1) == "-1";
  }

  /** Nothing is trimmed: a pid file ending in a newline never reads as running. */
  lemma NewlineNeverRunning(text: string, live: set<int>)
    ensures !IsContainerRunning(Some(text + "\n"), live)
  {
    ParseRejectsNewline(text);
  }

  /** When the container runs, the pid file is present and holds a number other than
      0 and -1, so the re-reads of stop (cmd/stop.go:39-52) find it and its signals
      never go to every process (kill(-1)) or to its own process group (kill(0)). */
  lemma RunningHasPid(pidFile: Option<string>, live: set<int>)
    requires IsContainerRunning(pidFile, live)
    ensures pidFile.Some? && ParseInt(pidFile.value).Some?
    ensures ParseInt(pidFile.value).value != 0 && ParseInt(pidFile.value).value != -1
  {
  }

  /** The foreground child a command starts: exec.Command(path, args...) with its
      Dir, Env and SysProcAttr.Credential. */
  datatype Launch = Launch(path: string, args: seq<string>, dir: string, env: seq<string>, credential: Identity.Credential)

  /** How the child ended: it exited with a status (0-255), a signal killed it, or
      it could not be started (the executable was not found, for one). */
  datatype ChildStatus = Exited(status: int) | Signaled | NotStarted(message: string)

  /** exec.Cmd.Run: nil for status 0, an *exec.ExitError whose ExitCode() is the
      status, or -1 after a signal, and the start error otherwise. */
  function Wait(s: ChildStatus): (r: Option<Error>)
    ensures r.None? <==> s == Exited(0)
    ensures s.Exited? && s.status != 0 ==> r == Some(ChildExit(s.status))
    ensures s.Signaled? ==> r == Some(ChildExit(-1))
    ensures s.NotStarted? ==> r == Some(Foreign(s.message))
  {
    match s
    case Exited(status) => if status == 0 then None else Some(ChildExit(status))
    case Signaled => Some(ChildExit(-1))
    case NotStarted(message) => Some(Foreign(message))
  }
}
