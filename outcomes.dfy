/** How a step of the orchestration ends: with a value, or with one of the
    three kinds of exception the module distinguishes. */
module Outcomes {

  /** The exceptions that can leave a step.
      - ApiError: the control-plane client's `ApiException`; the only kind
        `retry` repeats, and the one every "not yet" poll raises.
      - Error: any other Python exception (`Exception`, `KeyError`,
        `IndexError`, `AttributeError`); it propagates unchanged.
      - Fatal: `fail(module, msg)`, which ends the process through
        `fail_json` or `sys.exit`; it is never caught. */
  datatype Exc =
    | ApiError(msg: string)
    | Error(msg: string)
    | Fatal(reasons: seq<string>)

  /** The messages of the Python exceptions the steps raise. */
  const MissingGroup := "KeyError: 'group'"
  const MissingHosts := "KeyError: 'hosts'"
  const IndexOutOfRange := "IndexError: list index out of range"

  /** The control plane's message for a role config group it lacks. */
  function GroupNotFound(group: string): string {
    "Role config group " + group + " not found"
  }

  datatype Option<+T> = None | Some(value: T) {
    function GetOr(default: T): T {
      match this
      case Some(v) => v
      case None => default
    }
  }

  datatype Outcome<+T> = Ok(value: T) | Raise(exc: Exc)
}
