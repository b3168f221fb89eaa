/** The impact estimate shown beside a complaint
    (components/impact-estimation.tsx): a keyword tier of the complaint text
    fixes a base score and head count, a busy location doubles the head
    count and raises the score, and the score names a level and a
    timeframe. */
module ImpactEstimation {
  import opened Text
  import opened Keywords

  const TransportWords: seq<string> := ["road", "traffic", "signal"]
  const UtilityWords: seq<string> := ["water", "electricity", "power"]
  const SafetyWords: seq<string> := ["safety", "security", "light"]
  const NuisanceWords: seq<string> := ["garbage", "noise", "pollution"]
  const BusyPlaceWords: seq<string> := ["market", "main", "central"]

  /** A score on the 1..3 scale and the number of people affected. */
  datatype Base = Base(score: nat, people: nat)

  /** The keyword tiers in the order they are tried, and what each one
      yields. */
  const TierWords: seq<seq<string>> := [TransportWords, UtilityWords, SafetyWords, NuisanceWords]
  const TierBases: seq<Base> := [Base(3, 500), Base(3, 300), Base(2, 200), Base(2, 150)]
  const Untiered: Base := Base(1, 50)

  /** The decision table read directly: the first tier with a hit decides. */
  function TableBase(complaint: string): Base {
    var i := FirstHit(Lower(complaint), TierWords);
    if i < |TierBases| then TierBases[i] else Untiered
  }

  /** The chain of `includes` tests on the lower-cased complaint. */
  function BaseOf(complaint: string): (r: Base)
    ensures 1 <= r.score <= 3
    ensures r.people in {500, 300, 200, 150, 50}
  {
    var t := Lower(complaint);
    if Contains(t, "road") || Contains(t, "traffic") || Contains(t, "signal") then Base(3, 500)
    else if Contains(t, "water") || Contains(t, "electricity") || Contains(t, "power") then Base(3, 300)
    else if Contains(t, "safety") || Contains(t, "security") || Contains(t, "light") then Base(2, 200)
    else if Contains(t, "garbage") || Contains(t, "noise") || Contains(t, "pollution") then Base(2, 150)
    else Base(1, 50)
  }

  /** The chain of tests is the ordered table: first match wins. */
  lemma BaseIsFirstMatchingTier(complaint: string)
    ensures BaseOf(complaint) == TableBase(complaint)
  {
    var t := Lower(complaint);
    HitsThree(t, "road", "traffic", "signal");
    HitsThree(t, "water", "electricity", "power");
    HitsThree(t, "safety", "security", "light");
    HitsThree(t, "garbage", "noise", "pollution");
    var i := if HitsAny(t, TransportWords) then 0
             else if HitsAny(t, UtilityWords) then 1
             else if HitsAny(t, SafetyWords) then 2
             else if HitsAny(t, NuisanceWords) then 3
             else 4;
    FirstHitUnique(t, TierWords, i);
  }

  predicate BusyPlace(location: string) {
    var l := Lower(location);
    Contains(l, "market") || Contains(l, "main") || Contains(l, "central")
  }

  /** The estimate `calculateImpact` returns. */
  datatype Impact = Impact(level: string, people: nat, timeframe: string)

  /** The final score: the tier's, one higher at a busy place, at most 3. */
  function Score(complaint: string, location: string): (s: nat)
    ensures 1 <= s <= 3
    ensures s >= BaseOf(complaint).score
    ensures !BusyPlace(location) ==> s == BaseOf(complaint).score
    ensures BusyPlace(location) ==> s == if BaseOf(complaint).score < 3 then BaseOf(complaint).score + 1 else 3
  {
    var b := BaseOf(complaint).score;
    if BusyPlace(location) then (if b + 1 < 3 then b + 1 else 3) else b
  }

  /** The label shown for a score: 1 is low, 2 medium, 3 high. */
  function Level(score: nat): (r: string)
    requires 1 <= score <= 3
    ensures r == "Low" <==> score == 1
    ensures r == "Medium" <==> score == 2
    ensures r == "High" <==> score == 3
  {
    if score == 1 then "Low" else if score == 2 then "Medium" else "High"
  }

  /** The expected resolution time for a score: the higher, the sooner. */
  function Timeframe(score: nat): (r: string)
    requires 1 <= score <= 3
    ensures r == "1-2 weeks" <==> score == 1
    ensures r == "3-7 days" <==> score == 2
    ensures r == "1-3 days" <==> score == 3
  {
    if score == 1 then "1-2 weeks" else if score == 2 then "3-7 days" else "1-3 days"
  }

  /** Level and timeframe name the score one to one. */
  lemma LevelAndTimeframeDistinguishScores(s: nat, t: nat)
    requires 1 <= s <= 3 && 1 <= t <= 3
    ensures Level(s) == Level(t) <==> s == t
    ensures Timeframe(s) == Timeframe(t) <==> s == t
  {
  }

  /** `calculateImpact`. */
  function CalculateImpact(complaint: string, location: string): (r: Impact)
    ensures r.people == (if BusyPlace(location) then 2 else 1) * TableBase(complaint).people
    ensures r.level in {"Low", "Medium", "High"}
    ensures r.level == Level(Score(complaint, location)) && r.timeframe == Timeframe(Score(complaint, location))
  {
    BaseIsFirstMatchingTier(complaint);
    var b := BaseOf(complaint);
    var s := Score(complaint, location);
    Impact(Level(s), if BusyPlace(location) then 2 * b.people else b.people, Timeframe(s))
  }

  /** A complaint about roads at a busy place is rated at the top. */
  lemma BusyRoadIsHigh(complaint: string, location: string)
    requires Contains(Lower(complaint), "road") && BusyPlace(location)
    ensures CalculateImpact(complaint, location) == Impact("High", 1000, "1-3 days")
  {
  }

  /** Case never matters, in the complaint or in the location. */
  lemma ImpactIgnoresCase(complaint: string, complaint': string, location: string, location': string)
    requires Lower(complaint) == Lower(complaint') && Lower(location) == Lower(location')
    ensures CalculateImpact(complaint, location) == CalculateImpact(complaint', location')
  {
  }

  /** A busy location never lowers the estimate. */
  lemma BusyPlaceNeverLowers(complaint: string, busy: string, quiet: string)
    requires BusyPlace(busy) && !BusyPlace(quiet)
    ensures Score(complaint, busy) >= Score(complaint, quiet)
    ensures CalculateImpact(complaint, busy).people == 2 * CalculateImpact(complaint, quiet).people
  {
  }
}
