/**
 * The window covering of the platform: current and target lift in
 * hundredths of a percent (0 to 10000, absent while unknown) and a
 * three-axis operational status. Its `stopMotion` and `goToLiftPercentage`
 * handlers act locally (the controller exposes no cover endpoint), and the
 * demo tick moves it in steps of 10 %.
 */
module Covering {
  import opened Vendor

  datatype MovementStatus = Stopped | Opening | Closing

  datatype OperationalStatus = OperationalStatus(global: MovementStatus, lift: MovementStatus, tilt: MovementStatus)

  const AllStopped := OperationalStatus(Stopped, Stopped, Stopped)

  const FullyClosed: int := 10000

  predicate LiftInRange(p: Option<int>) {
    p.Some? ==> 0 <= p.value <= FullyClosed
  }

  /** The covering is at rest: every axis stopped and, where known, target == current. */
  predicate AtRest(current: Option<int>, target: Option<int>, status: OperationalStatus) {
    status == AllStopped && (current.Some? ==> target == current)
  }

  /** The demo tick's next position: back to 0 from 90 % or more, else 10 % further. */
  function NextDemoLift(p: int): (r: int)
    ensures 0 <= p ==> 0 <= r < FullyClosed
    ensures r == 0 || r == p + 1000
    ensures p < 9000 ==> r == p + 1000
  {
    if p >= 9000 then 0 else p + 1000
  }

  /** The position after `k` demo ticks from `p`. */
  function DemoLiftAfter(p: int, k: nat): int
    decreases k
  {
    if k == 0 then p else DemoLiftAfter(NextDemoLift(p), k - 1)
  }

  /** The number of demo ticks it takes to reach 0 from `p`. */
  function TicksToOpen(p: int): (k: nat)
    requires 0 <= p
    decreases FullyClosed - p
  {
    if p >= 9000 then 1 else 1 + TicksToOpen(p + 1000)
  }

  /** From any position the demo cycle returns to 0 within ten ticks. */
  lemma {:induction false} DemoLiftReturnsToOpen(p: int)
    requires 0 <= p
    ensures 1 <= TicksToOpen(p) <= 10
    ensures DemoLiftAfter(p, TicksToOpen(p)) == 0
    decreases FullyClosed - p
  {
    if p < 9000 {
      DemoLiftReturnsToOpen(p + 1000);
    }
  }

  class WindowCovering {
    var currentLift: Option<int>
    var targetLift: Option<int>
    var status: OperationalStatus

    ghost predicate Valid()
      reads this
    {
      LiftInRange(currentLift) && LiftInRange(targetLift)
    }

    constructor (current: Option<int>, target: Option<int>, status: OperationalStatus)
      requires LiftInRange(current) && LiftInRange(target)
      ensures Valid()
      ensures currentLift == current && targetLift == target && this.status == status
    {
      currentLift := current;
      targetLift := target;
      this.status := status;
    }

    /** `stopMotion`: the target freezes at a known current lift; every axis stops. */
    method StopMotion()
      requires Valid()
      modifies this
      ensures Valid()
      ensures currentLift == old(currentLift)
      ensures targetLift == if old(currentLift).Some? then old(currentLift) else old(targetLift)
      ensures status == AllStopped
      ensures AtRest(currentLift, targetLift, status)
    {
      if currentLift.Some? {
        targetLift := currentLift;
      }
      status := AllStopped;
    }

    /** `goToLiftPercentage`: the covering is taken to the requested lift at once. */
    method GoToLiftPercentage(liftPercent100thsValue: int)
      requires Valid()
      requires 0 <= liftPercent100thsValue <= FullyClosed
      modifies this
      ensures Valid()
      ensures currentLift == Some(liftPercent100thsValue) && targetLift == Some(liftPercent100thsValue)
      ensures status == AllStopped
      ensures AtRest(currentLift, targetLift, status)
    {
      currentLift := Some(liftPercent100thsValue);
      targetLift := Some(liftPercent100thsValue);
      status := AllStopped;
    }

    /** One demo tick: nothing while the position is unknown, else the next step of the cycle. */
    method DemoTick()
      requires Valid()
      modifies this
      ensures Valid()
      ensures old(currentLift).None? ==>
        currentLift == old(currentLift) && targetLift == old(targetLift) && status == old(status)
      ensures old(currentLift).Some? ==>
        currentLift == Some(NextDemoLift(old(currentLift).value)) && AtRest(currentLift, targetLift, status)
    {
      if currentLift.None? {
        return;
      }
      var position := NextDemoLift(currentLift.value);
      targetLift := Some(position);
      currentLift := Some(position);
      status := AllStopped;
    }
  }
}
