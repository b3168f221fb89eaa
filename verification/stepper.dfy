/** The horizontal progress stepper (components/progress-stepper.tsx): each
    step is classified against the current step number, and a bar shows the
    fraction of the way from the first step to the last. */
module ProgressStepper {
  import opened Optional

  datatype Phase = Completed | Active | Upcoming

  /** A step is completed below the current number, active at it and
      upcoming above it. */
  function PhaseOf(id: int, current: int): (r: Phase)
    ensures r == Completed <==> id < current
    ensures r == Active <==> id == current
    ensures r == Upcoming <==> id > current
  {
    if id < current then Completed else if id == current then Active else Upcoming
  }

  /** What a step's circle shows and whether the bouncing dot appears. */
  datatype Marker = Marker(checkMark: bool, number: int, bounce: bool)

  function MarkerOf(id: int, current: int): (r: Marker)
    ensures r.checkMark <==> PhaseOf(id, current) == Completed
    ensures r.bounce <==> PhaseOf(id, current) == Active
    ensures !(r.checkMark && r.bounce)
  {
    var ph := PhaseOf(id, current);
    Marker(ph == Completed, id, ph == Active)
  }

  predicate DistinctIds(ids: seq<int>) {
    forall i, j :: 0 <= i < j < |ids| ==> ids[i] != ids[j]
  }

  /** With distinct ids no two steps are active at once. */
  lemma AtMostOneActive(ids: seq<int>, current: int)
    requires DistinctIds(ids)
    ensures forall i, j ::
      (0 <= i < |ids| && 0 <= j < |ids| && PhaseOf(ids[i], current) == Active && PhaseOf(ids[j], current) == Active)
      ==> i == j
  {
  }

  /** The bar width in percent, `(current - 1) / (steps - 1) * 100`. With a
      single step the division is 0/0 or a division by zero, whose result is
      not a usable width; it is `None` here. */
  function Width(current: int, steps: nat): (r: Option<real>)
    ensures steps == 1 <==> r.None?
    ensures steps >= 2 && 1 <= current <= steps ==> r.Some? && 0.0 <= r.value <= 100.0
    ensures steps >= 2 && current == 1 ==> r == Some(0.0)
    ensures steps >= 2 && current == steps ==> r == Some(100.0)
  {
    if steps == 1 then None
    else
      var w := (current - 1) as real / (steps - 1) as real * 100.0;
      SelfRatio((steps - 1) as real);
      if 1 <= current <= steps then
        RatioBounds(current - 1, steps - 1);
        Some(w)
      else Some(w)
  }

  lemma SelfRatio(x: real)
    requires x != 0.0
    ensures x / x == 1.0
  {
  }

  lemma RatioBounds(a: int, b: int)
    requires 0 <= a <= b && b > 0
    ensures 0.0 <= a as real / b as real * 100.0 <= 100.0
  {
    assert a as real / b as real <= 1.0;
  }

  /** The bar only grows as the current step advances. */
  lemma WidthMonotone(c1: int, c2: int, steps: nat)
    requires steps >= 2 && c1 <= c2
    ensures Width(c1, steps).value <= Width(c2, steps).value
  {
    var d := (steps - 1) as real;
    assert (c1 - 1) as real / d <= (c2 - 1) as real / d;
  }

  /** The complaint wizard's three steps, numbered 1 to 3: at every wizard
      step exactly one of them is active. */
  const WizardIds: seq<int> := [1, 2, 3]

  lemma WizardHasOneActive(current: int)
    requires 1 <= current <= 3
    ensures exists i :: 0 <= i < |WizardIds| && PhaseOf(WizardIds[i], current) == Active
    ensures forall i, j ::
      (0 <= i < |WizardIds| && 0 <= j < |WizardIds|
       && PhaseOf(WizardIds[i], current) == Active && PhaseOf(WizardIds[j], current) == Active)
      ==> i == j
  {
    assert PhaseOf(WizardIds[current - 1], current) == Active;
    AtMostOneActive(WizardIds, current);
  }
}
