/**
 * `handle_sigint` of the two newest snapshots: the first Ctrl+C asks the
 * threads to stop, the second exits with status 1, later ones do nothing.
 */
module Signals {
  import opened Wrappers

  /** The exit status the `n`-th press asks for, if any. */
  function ExitOnPress(n: nat): Option<int>
  {
    if n == 2 then Some(1) else None
  }

  /** `ctrl_c_count` and `stop_flag`. */
  class SigintHandler {
    var ctrlCCount: nat
    var stopFlag: bool

    /** The flag is set exactly when at least one press has been seen. */
    predicate Valid()
      reads this
    {
      stopFlag <==> ctrlCCount >= 1
    }

    constructor()
      ensures Valid() && ctrlCCount == 0 && !stopFlag
    {
      ctrlCCount := 0;
      stopFlag := false;
    }

    /**
     * One SIGINT: the count rises by one, the first press sets the flag, the
     * second requests `sys.exit(1)`, and the flag is set afterwards whatever
     * it was before.
     */
    method HandleSigint() returns (exitStatus: Option<int>)
      requires Valid()
      modifies this
      ensures Valid()
      ensures ctrlCCount == old(ctrlCCount) + 1
      ensures stopFlag
      ensures exitStatus == ExitOnPress(ctrlCCount)
    {
      ctrlCCount := ctrlCCount + 1;
      exitStatus := None;
      if ctrlCCount == 1 {
        stopFlag := true;
      } else if ctrlCCount == 2 {
        exitStatus := Some(1);
      }
    }
  }
}
