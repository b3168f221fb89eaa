/** Ordered keyword decision tables, the shape shared by the impact
    estimate and the smart suggestions: a list of keyword groups, the first
    group with a keyword occurring in the text decides. */
module Keywords {
  import opened Text

  /** Some keyword of the group occurs in `text`. */
  predicate HitsAny(text: string, keywords: seq<string>) {
    exists k :: 0 <= k < |keywords| && Contains(text, keywords[k])
  }

  /** For a group of three, a hit is one of three `includes` tests. */
  lemma HitsThree(text: string, a: string, b: string, c: string)
    ensures HitsAny(text, [a, b, c]) <==> Contains(text, a) || Contains(text, b) || Contains(text, c)
  {
    var g := [a, b, c];
    if Contains(text, a) {
      assert Contains(text, g[0]);
    } else if Contains(text, b) {
      assert Contains(text, g[1]);
    } else if Contains(text, c) {
      assert Contains(text, g[2]);
    }
  }

  /** The position of the first group with a hit, or the number of groups
      when none has one. */
  function FirstHit(text: string, groups: seq<seq<string>>): (i: nat)
    ensures i <= |groups|
    ensures i < |groups| ==> HitsAny(text, groups[i])
    ensures forall j :: 0 <= j < i ==> !HitsAny(text, groups[j])
  {
    if |groups| == 0 then 0
    else if HitsAny(text, groups[0]) then 0
    else
      var i := FirstHit(text, groups[1..]);
      assert forall j :: 1 <= j < i + 1 ==> groups[j] == groups[1..][j - 1];
      1 + i
  }

  /** The first hit is determined by which groups hit. */
  lemma FirstHitUnique(text: string, groups: seq<seq<string>>, i: nat)
    requires i <= |groups|
    requires i < |groups| ==> HitsAny(text, groups[i])
    requires forall j :: 0 <= j < i ==> !HitsAny(text, groups[j])
    ensures FirstHit(text, groups) == i
  {
  }
}
