/** The process exit of `dockerless` (main.go:22-35): how the error a command
    returned becomes the exit status and what is written to standard error. */
module Exit {
  import opened Base
  import opened Supervisor

  /** errors.As(err, &*exec.ExitError): the ExitCode() of the first ExitError in the
      wrap chain, if there is one. */
  function ExitErrorCode(e: Error): Option<int> {
    match e
    case ChildExit(code) => Some(code)
    case Wrap(_, cause) => ExitErrorCode(cause)
    case _ => None
  }

  /** `cause` wrapped by fmt.Errorf("%w") once per context, the last context outermost. */
  function WrapAll(contexts: seq<string>, cause: Error): Error {
    if contexts == [] then cause
    else Wrap(contexts[|contexts| - 1], WrapAll(contexts[..|contexts| - 1], cause))
  }

  /** errors.As looks through any chain of %w wrapping: the exit code is that of the
      wrapped error. */
  lemma {:induction false} ExitCodeThroughWraps(contexts: seq<string>, cause: Error)
    ensures ExitErrorCode(WrapAll(contexts, cause)) == ExitErrorCode(cause)
    decreases |contexts|
  {
    if contexts != [] {
      ExitCodeThroughWraps(contexts[..|contexts| - 1], cause);
    }
  }

  /** The status the process exits with (os.Exit keeps the low 8 bits) and the
      error printed to standard error, if any. */
  datatype ProcessExit = ProcessExit(status: int, stderr: Option<Error>)

  function ExitOf(err: Option<Error>): (x: ProcessExit)
    ensures 0 <= x.status < 256
    ensures err.None? ==> x == ProcessExit(0, None)
    ensures err.Some? && ExitErrorCode(err.value).Some? ==> x.stderr.None? && x.status == ExitErrorCode(err.value).value % 256
    ensures err.Some? && ExitErrorCode(err.value).None? ==> x == ProcessExit(1, err)
  {
    match err
    case None => ProcessExit(0, None)
    case Some(e) =>
      match ExitErrorCode(e)
      case Some(code) => ProcessExit(code % 256, None)
      case None => ProcessExit(1, Some(e))
  }

  /** The codes an *exec.ExitError can carry: -1 after a signal, or a non-zero status. */
  predicate ChildCodes(e: Error) {
    match e
    case ChildExit(code) => code == -1 || 1 <= code <= 255
    case Wrap(_, cause) => ChildCodes(cause)
    case _ => true
  }

  lemma {:induction false} ChildCodesNonZero(e: Error)
    requires ChildCodes(e)
    ensures ExitErrorCode(e).Some? ==> ExitErrorCode(e).value % 256 != 0
  {
    match e
    case Wrap(_, cause) => ChildCodesNonZero(cause);
    case _ =>
  }

  /** The errors Wait returns carry only the codes ChildCodes allows, so
      ZeroExactlyOnSuccess applies to them. */
  lemma WaitChildCodes(s: ChildStatus)
    requires s.Exited? ==> 0 <= s.status <= 255
    ensures Wait(s).Some? ==> ChildCodes(Wait(s).value)
  {
  }

  /** The process exits 0 exactly when the command returned no error. */
  lemma ZeroExactlyOnSuccess(err: Option<Error>)
    requires err.Some? ==> ChildCodes(err.value)
    ensures ExitOf(err).status == 0 <==> err.None?
  {
    if err.Some? {
      ChildCodesNonZero(err.value);
    }
  }

  /** A child's exit status becomes the exit status of dockerless, a child killed by a
      signal gives 255, and a child that could not start gives 1 with its error printed. */
  lemma ChildStatusPropagates(s: ChildStatus)
    requires s.Exited? ==> 0 <= s.status <= 255
    ensures s.Exited? ==> ExitOf(Wait(s)) == ProcessExit(s.status, None)
    ensures s.Signaled? ==> ExitOf(Wait(s)) == ProcessExit(255, None)
    ensures s.NotStarted? ==> ExitOf(Wait(s)) == ProcessExit(1, Wait(s))
  {
  }
}
