/** The "Smart Suggestions" card (components/smart-suggestions.tsx): the
    complaint text, lower-cased, is classified by the first keyword group it
    mentions, and each class comes with four writing tips. */
module SmartSuggestions {
  import opened Text
  import opened Keywords

  const WaterWords: seq<string> := ["water", "leak", "pipe"]
  const RoadWords: seq<string> := ["road", "pothole", "traffic"]
  const SanitationWords: seq<string> := ["garbage", "waste", "clean"]
  const LightingWords: seq<string> := ["light", "electricity", "power"]

  const GroupWords: seq<seq<string>> := [WaterWords, RoadWords, SanitationWords, LightingWords]

  const Water: string := "Water & Utilities"
  const Roads: string := "Roads & Traffic"
  const Sanitation: string := "Sanitation & Cleanliness"
  const Lighting: string := "Electricity & Lighting"
  const General: string := "General Issue"

  /** The categories in table order, the last one for text no group hits. */
  const Categories: seq<string> := [Water, Roads, Sanitation, Lighting, General]

  const WaterTips: seq<string> := [
    "Include the exact location of the water issue",
    "Mention if it's affecting multiple households",
    "Note the duration of the problem",
    "Add photos if possible"]
  const RoadTips: seq<string> := [
    "Specify the exact road name or landmark",
    "Mention peak hours when issue is worst",
    "Include safety concerns if any",
    "Note if it affects public transport"]
  const SanitationTips: seq<string> := [
    "Mention the frequency of the issue",
    "Include health concerns if any",
    "Specify the type of waste",
    "Note if it attracts pests"]
  const LightingTips: seq<string> := [
    "Mention specific pole numbers if visible",
    "Include timing when lights should work",
    "Note safety concerns in the area",
    "Specify if it's street or area lighting"]
  const GeneralTips: seq<string> := [
    "Be as specific as possible about the location",
    "Include when the problem started",
    "Mention how it affects daily life",
    "Add any relevant photos"]

  /** The tips of each category, in the order of `Categories`. */
  const TipSets: seq<seq<string>> := [WaterTips, RoadTips, SanitationTips, LightingTips, GeneralTips]

  datatype Classification = Classification(category: string, suggestions: seq<string>)

  /** The effect's chain of `includes` tests on the lower-cased text. */
  function Classify(complaint: string): (r: Classification)
    ensures |r.suggestions| == 4
    ensures r.category in Categories
  {
    var t := Lower(complaint);
    if Contains(t, "water") || Contains(t, "leak") || Contains(t, "pipe") then Classification(Water, WaterTips)
    else if Contains(t, "road") || Contains(t, "pothole") || Contains(t, "traffic") then Classification(Roads, RoadTips)
    else if Contains(t, "garbage") || Contains(t, "waste") || Contains(t, "clean") then Classification(Sanitation, SanitationTips)
    else if Contains(t, "light") || Contains(t, "electricity") || Contains(t, "power") then Classification(Lighting, LightingTips)
    else Classification(General, GeneralTips)
  }

  /** The chain is the ordered table: the category and tips of the first
      keyword group the text mentions, "General Issue" with the general tips
      when it mentions none. */
  lemma CategoryIsFirstMatchingGroup(complaint: string)
    ensures Classify(complaint).category == Categories[FirstHit(Lower(complaint), GroupWords)]
    ensures Classify(complaint).suggestions == TipSets[FirstHit(Lower(complaint), GroupWords)]
  {
    var t := Lower(complaint);
    HitsThree(t, "water", "leak", "pipe");
    HitsThree(t, "road", "pothole", "traffic");
    HitsThree(t, "garbage", "waste", "clean");
    HitsThree(t, "light", "electricity", "power");
    var i := if HitsAny(t, WaterWords) then 0
             else if HitsAny(t, RoadWords) then 1
             else if HitsAny(t, SanitationWords) then 2
             else if HitsAny(t, LightingWords) then 3
             else 4;
    FirstHitUnique(t, GroupWords, i);
  }

  /** Text that mentions water and a road is a water complaint. */
  lemma WaterBeforeRoads(complaint: string)
    requires Contains(Lower(complaint), "water") && Contains(Lower(complaint), "road")
    ensures Classify(complaint).category == Water
  {
  }

  /** Case never matters. */
  lemma ClassifyIgnoresCase(complaint: string, complaint': string)
    requires Lower(complaint) == Lower(complaint')
    ensures Classify(complaint) == Classify(complaint')
  {
  }

  /** The card: hidden until the effect has produced suggestions, which
      after the first classification it always has. */
  datatype Card = Hidden | Shown(category: string, suggestions: seq<string>)

  function Render(state: Classification): (r: Card)
    ensures r.Hidden? <==> |state.suggestions| == 0
  {
    if |state.suggestions| == 0 then Hidden else Shown(state.category, state.suggestions)
  }

  /** Once the text has been classified the card is always shown. */
  lemma ClassifiedCardShown(complaint: string)
    ensures Render(Classify(complaint)).Shown?
  {
  }
}
