/** How a call that leaves the operator (API server, git server) can end. */
module Calls {
  datatype Option<+T> = None | Some(value: T)

  /**
    Done: the effect took place and was reported.
    Failed: an error, no effect.
    Lost: the effect took place, but an error came back (timeout, dropped connection).
    CrashBefore, CrashAfter: the operator process died just before or just after the effect.
  */
  datatype Outcome = Done | Failed | Lost | CrashBefore | CrashAfter {
    predicate TookEffect() {
      this in {Done, Lost, CrashAfter}
    }

    function Seen(): Reply {
      match this
      case Done => Ok
      case Failed => Err
      case Lost => Err
      case CrashBefore => Crashed
      case CrashAfter => Crashed
    }
  }

  /** What the code after the call sees; after Crashed there is no code left to run. */
  datatype Reply = Ok | Err | Crashed

  /** The outcomes that leave the process running. */
  type Answer = o: Outcome | o.Done? || o.Failed? || o.Lost? witness Done
}
