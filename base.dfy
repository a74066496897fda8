/** Values shared by every command: optional values, results, and the errors the
    commands return (each constructor names the Go error it stands for). */
module Base {

  datatype Option<+T> = None | Some(value: T) {
    function GetOr(default: T): T {
      match this
      case Some(v) => v
      case None => default
    }
  }

  /** The errno carried by an *os.PathError. */
  datatype Errno = ENOENT | EACCES

  datatype Error =
    | AlreadyRunning                      // "container is already running"
    | NotRunning                          // "container is not running"
    | StillRunning                        // "container is running, please stop first"
    | NoEntrypoint                        // "no entrypoint specified"
    | DockerfileMissing                   // "--dockerfile is missing"
    | ContextMissing                      // "--context is missing"
    | InspectUsage                        // "please specify either 'container' or 'image'"
    | Io(op: string, path: string, errno: Errno)  // *os.PathError, e.g. "open <path>: ..."
    | JsonSyntax                          // json.Unmarshal of a malformed document
    | BadNumber(input: string)            // *strconv.NumError from strconv.Atoi
    | UnknownUser(name: string)           // user.UnknownUserError
    | UnknownUserId(id: string)           // user.UnknownUserIdError
    | Foreign(message: string)            // an error of a library call outside the model
    | Wrap(context: string, cause: Error) // fmt.Errorf("<context>: %w", cause)
    | ChildExit(code: int)                // *exec.ExitError, code as ExitCode() reports it

  /** A value or the error a Go function returned instead. */
  datatype Result<+T> = Ok(value: T) | Err(error: Error)

  /** The bare `error` result of a Go function: nil or an error. */
  datatype Outcome = Pass | Fail(cause: Error)
}
