/**
 * The cosmetic progress indicator (components/ProcessingView.tsx): a step counter that
 * each interval tick advances until the last of the four steps.
 */
module ProcessingView {

  /** `STEPS.length` */
  const StepCount: nat := 4

  /** How one step renders: the current one, one already passed, or one still to come. */
  datatype StepStatus = Active | Done | Pending

  /** The functional update `prev => prev < STEPS.length - 1 ? prev + 1 : prev`. */
  function Next(prev: int): (next: int)
    ensures 0 <= prev < StepCount ==> 0 <= next < StepCount && prev <= next
    ensures 0 <= prev < StepCount ==> next == if prev + 1 < StepCount - 1 then prev + 1 else StepCount - 1
  {
    if prev < StepCount - 1 then prev + 1 else prev
  }

  /** `isActive` decides first, then `isDone`; any other step is pending. */
  function StatusOf(activeStep: int, idx: int): (s: StepStatus)
    ensures s == Active <==> idx == activeStep
    ensures s == Done <==> idx < activeStep
    ensures s == Pending <==> idx > activeStep
  {
    if idx == activeStep then Active else if idx < activeStep then Done else Pending
  }

  /** For a counter on one of the four steps, exactly that step is active. */
  lemma ExactlyOneActive(activeStep: int)
    requires 0 <= activeStep < StepCount
    ensures (set i | 0 <= i < StepCount && StatusOf(activeStep, i) == Active) == {activeStep}
  {
    assert StatusOf(activeStep, activeStep) == Active;
  }

  /** The counter after `n` ticks from the initial 0. */
  function AfterTicks(n: nat): int {
    if n == 0 then 0 else Next(AfterTicks(n - 1))
  }

  /** After `n` ticks the counter reads `min(n, 3)`: it climbs, then stays on the last step. */
  lemma {:induction false} AfterTicksSaturates(n: nat)
    ensures AfterTicks(n) == if n < StepCount - 1 then n else StepCount - 1
  {
    if n > 0 {
      AfterTicksSaturates(n - 1);
    }
  }

  /** Ticks never move the counter back. */
  lemma {:induction false} AfterTicksMonotone(m: nat, n: nat)
    requires m <= n
    ensures AfterTicks(m) <= AfterTicks(n)
  {
    AfterTicksSaturates(m);
    AfterTicksSaturates(n);
  }

  /** The `activeStep` state cell of one mounted view. */
  class Ticker {
    var activeStep: int
    ghost var ticks: nat

    ghost predicate Valid()
      reads this
    {
      0 <= activeStep < StepCount && activeStep == AfterTicks(ticks)
    }

    /** `useState(0)` */
    constructor ()
      ensures Valid() && activeStep == 0 && ticks == 0
    {
      activeStep := 0;
      ticks := 0;
    }

    /** One interval tick. */
    method Tick()
      requires Valid()
      modifies this
      ensures Valid() && ticks == old(ticks) + 1
      ensures activeStep == if old(activeStep) + 1 < StepCount - 1 then old(activeStep) + 1 else StepCount - 1
      ensures old(activeStep) <= activeStep
      ensures old(activeStep) == StepCount - 1 ==> activeStep == StepCount - 1
    {
      activeStep := Next(activeStep);
      ticks := ticks + 1;
    }

    /** How step `idx` renders now. */
    function Status(idx: int): (s: StepStatus)
      reads this
      requires Valid()
      ensures 0 <= idx < StepCount ==> (s == Active <==> idx == activeStep)
    {
      StatusOf(activeStep, idx)
    }
  }
}
