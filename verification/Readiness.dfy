/** Waiting for the daemon's control socket (`helper/service.py`, `wait_for_charon_ready`). */
module Readiness {

  datatype Outcome = Ready | Exited | Cancelled | TimedOut

  /** What one pass of the loop finds: the checks before it waits, whether the socket came, and the check after. */
  datatype Look = Look(cancelled: bool, exited: bool, expired: bool, socket: bool, exitedMeanwhile: bool)

  /** The pass ends the wait. */
  predicate Decides(k: Look) { k.cancelled || k.exited || k.expired || k.socket }

  /** The passes up to `n` did not end the wait. */
  predicate Undecided(looks: seq<Look>, n: nat)
    requires n <= |looks|
  {
    forall i | 0 <= i < n :: !Decides(looks[i])
  }

  /**
   The loop. The time limit ends it, so some pass decides; `last` is what the checks after the loop
   find. The daemon is reported ready only when it was seen alive after its socket appeared, and a
   timeout only when it was neither cancelled nor gone at the end.
   */
  method WaitForCharonReady(looks: seq<Look>, last: Look) returns (r: Outcome, n: nat)
    requires exists i | 0 <= i < |looks| :: looks[i].expired
    ensures n < |looks| && Undecided(looks, n) && Decides(looks[n])
    ensures r == Ready <==> !looks[n].cancelled && !looks[n].exited && !looks[n].expired && !looks[n].exitedMeanwhile
    ensures r == TimedOut <==> !looks[n].cancelled && !looks[n].exited && looks[n].expired && !last.cancelled && !last.exited
    ensures r == Cancelled ==> looks[n].cancelled || (looks[n].expired && last.cancelled)
    ensures looks[n].cancelled ==> r == Cancelled
    ensures r == Exited ==> looks[n].exited || looks[n].exitedMeanwhile || last.exited
  {
    ghost var limit :| 0 <= limit < |looks| && looks[limit].expired;
    n := 0;
    while true
      invariant n <= limit && Undecided(looks, n)
      decreases limit - n
    {
      var k := looks[n];
      if k.cancelled {
        return Cancelled, n;
      }
      if k.exited {
        return Exited, n;
      }
      if k.expired {
        break;
      }
      if k.socket {
        return if k.exitedMeanwhile then Exited else Ready, n;
      }
      n := n + 1;
    }
    if last.cancelled {
      return Cancelled, n;
    }
    r := if last.exited then Exited else TimedOut;
  }
}
