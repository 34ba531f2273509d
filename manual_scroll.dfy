/**
  The shared manual-scroll guard. While it is set, the scroll listeners of the
  navigation presenters leave the highlighted item alone. Its storage is not
  part of this model. It is modelled as one boolean cell with a getter and a
  setter. Beside the cell sit the resets the presenters have scheduled and
  not yet fired. Each pending reset is recorded by its delay in milliseconds.
  Scheduling never cancels an earlier reset.
 */
module ManualScroll {

  class ManualScrollGuard {
    var manualScrolling: bool
    /** Delays of the scheduled `setManualScrolling(false)` timers that have not fired yet. */
    var pendingResets: multiset<nat>

    /** The guard is never left set with no reset on its way to clear it. */
    ghost predicate Valid()
      reads this
    {
      manualScrolling ==> |pendingResets| > 0
    }

    constructor ()
      ensures !manualScrolling && pendingResets == multiset{}
      ensures Valid()
    {
      manualScrolling := false;
      pendingResets := multiset{};
    }

    /** getManualScrolling */
    method Get() returns (b: bool)
      ensures b == manualScrolling
    {
      b := manualScrolling;
    }

    /** setManualScrolling */
    method Set(b: bool)
      modifies this
      ensures manualScrolling == b
      ensures pendingResets == old(pendingResets)
    {
      manualScrolling := b;
    }

    /** setTimeout(() => setManualScrolling(false), delay): adds a reset, keeps the earlier ones. */
    method ScheduleReset(delay: nat)
      modifies this
      ensures manualScrolling == old(manualScrolling)
      ensures pendingResets == old(pendingResets) + multiset{delay}
      ensures delay in pendingResets
    {
      pendingResets := pendingResets + multiset{delay};
    }

    /** One pending reset fires: it is removed and the guard is cleared, whoever set it. */
    method FireReset(delay: nat)
      requires delay in pendingResets
      modifies this
      ensures !manualScrolling
      ensures pendingResets == old(pendingResets) - multiset{delay}
      ensures |pendingResets| == |old(pendingResets)| - 1
      ensures Valid()
    {
      pendingResets := pendingResets - multiset{delay};
      manualScrolling := false;
    }
  }
}
