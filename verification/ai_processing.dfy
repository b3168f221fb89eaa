/** The "AI Analysis in Progress" screen (components/ai-processing.tsx).
    Timers are abstracted: at every moment exactly one timer is pending (the
    delay before a step, the 50 ms progress interval, or the delay before
    `onComplete`), and `Fire` is that timer going off. */
module AiProcessing {
  import opened ProgressStepper

  /** The number of analysis steps. */
  const Steps: nat := 5

  /** `(i + 1) * (100 / 5)`: the counter value at which step `i` ends. */
  function Target(i: nat): nat {
    (i + 1) * 20
  }

  /** The counter's increment per interval tick. */
  const Increment: nat := 2

  /** Which timer is pending. */
  datatype Pending =
    | StepDelay      // `processStep` is scheduled (500 ms at start, 300 ms between steps)
    | Interval       // the 50 ms progress interval runs
    | CompleteDelay  // `onComplete` is scheduled
    | NoTimer        // everything has run

  /** `stepIndex` and `progressValue` are the effect's locals; `currentStep`
      and `progress` are the rendered state; `completions` counts the calls
      of `onComplete`. */
  datatype Proc = Proc(pending: Pending, stepIndex: nat, counter: nat, currentStep: nat,
                       progress: nat, completions: nat)

  const Initial: Proc := Proc(StepDelay, 0, 0, 0, 0, 0)

  /** The pending timer goes off. Only the completion timer calls
      `onComplete`; only an interval tick moves the counter, and the step
      advances exactly when that tick reaches the step's target. */
  function Fire(p: Proc): (r: Proc)
    ensures p.pending == NoTimer ==> r == p
    ensures r.completions == p.completions + (if p.pending == CompleteDelay then 1 else 0)
    ensures r.counter == if p.pending == Interval then p.counter + Increment else p.counter
    ensures r.stepIndex == p.stepIndex
              + (if p.pending == Interval && p.counter + Increment >= Target(p.stepIndex) then 1 else 0)
    ensures p.pending == Interval ==> r.progress <= Target(p.stepIndex) && r.progress <= r.counter
    ensures p.pending == StepDelay ==> (r.pending == Interval <==> p.stepIndex < Steps)
    ensures r.pending == CompleteDelay && p.pending != CompleteDelay ==> r.stepIndex >= Steps
  {
    match p.pending
    case StepDelay =>
      if p.stepIndex < Steps then p.(pending := Interval, currentStep := p.stepIndex) else p.(pending := NoTimer)
    case Interval =>
      var counter := p.counter + Increment;
      var shown := if counter < Target(p.stepIndex) then counter else Target(p.stepIndex);
      if counter >= Target(p.stepIndex) then
        var next := p.stepIndex + 1;
        p.(pending := if next >= Steps then CompleteDelay else StepDelay,
           stepIndex := next, counter := counter, progress := shown)
      else p.(counter := counter, progress := shown)
    case CompleteDelay => p.(pending := NoTimer, completions := p.completions + 1)
    case NoTimer => p
  }

  /** What holds at every point of the run. */
  predicate Inv(p: Proc) {
    && p.currentStep < Steps
    && p.progress == p.counter
    && p.counter % 2 == 0
    && p.completions == (if p.pending == NoTimer then 1 else 0)
    && match p.pending
       case StepDelay => p.stepIndex < Steps && p.counter == p.stepIndex * 20
       case Interval => p.stepIndex < Steps && p.stepIndex * 20 <= p.counter < Target(p.stepIndex)
                        && p.currentStep == p.stepIndex
       case CompleteDelay => p.stepIndex == Steps && p.counter == 100 && p.currentStep == Steps - 1
       case NoTimer => p.stepIndex == Steps && p.counter == 100 && p.currentStep == Steps - 1
  }

  lemma InitialInv()
    ensures Inv(Initial)
  {
  }

  /** Every timer keeps the invariant; the counter grows by two exactly on
      an interval tick; the displayed progress never falls; `onComplete`
      runs at most once. */
  lemma FireKeepsInv(p: Proc)
    requires Inv(p)
    ensures Inv(Fire(p))
    ensures Fire(p).counter == if p.pending == Interval then p.counter + Increment else p.counter
    ensures p.progress <= Fire(p).progress <= 100
    ensures Fire(p).completions <= 1
  {
  }

  /** On a tick, the step advances exactly when the counter reaches the
      step's target. */
  lemma StepAdvancesAtTarget(p: Proc)
    requires Inv(p) && p.pending == Interval
    ensures Fire(p).stepIndex == p.stepIndex + 1 <==> p.counter + Increment == Target(p.stepIndex)
    ensures Fire(p).stepIndex == p.stepIndex || Fire(p).stepIndex == p.stepIndex + 1
  {
  }

  /** Each row of the step list is classified like a stepper step against
      `currentStep`; the last step keeps its spinner after completion, since
      `currentStep` is never set past it. */
  function RowPhase(index: nat, p: Proc): (r: Phase)
    ensures r == Active <==> index == p.currentStep
    ensures r == Completed <==> index < p.currentStep
  {
    PhaseOf(index, p.currentStep)
  }

  /** Distance to the end of the run: falls with every timer. */
  function Remaining(p: Proc): nat
    requires Inv(p)
  {
    3 * (100 - p.counter) + match p.pending
      case StepDelay => 2
      case Interval => 1
      case CompleteDelay => 1
      case NoTimer => 0
  }

  /** Runs the timers until none is pending and counts the interval ticks:
      fifty ticks take the counter to 100 and `onComplete` runs once. */
  method RunToCompletion() returns (p: Proc, ticks: nat)
    ensures p.pending == NoTimer
    ensures ticks == 50
    ensures p.progress == 100 && p.completions == 1
    ensures p.currentStep == Steps - 1
  {
    p := Initial;
    ticks := 0;
    while p.pending != NoTimer
      invariant Inv(p)
      invariant 2 * ticks == p.counter
      decreases Remaining(p)
    {
      if p.pending == Interval {
        ticks := ticks + 1;
      }
      FireKeepsInv(p);
      p := Fire(p);
    }
  }
}
