/** The complaint form page (app/complaint/page.tsx): the three-step
    wizard, location suggestions, coordinate regions, reverse-geocoded
    address formatting, and what happens once the processing animation
    completes and the analysis backend has answered. */
module ComplaintForm {
  import opened Optional
  import opened Text
  import opened Seqs
  import Store
  import opened ComplaintHistory

  const PopularLocations: seq<string> := [
    "Connaught Place, Central Delhi, New Delhi, 110001",
    "Marine Drive, Nariman Point, Mumbai, Maharashtra, 400021",
    "MG Road, Shivaji Nagar, Bangalore, Karnataka, 560001",
    "Park Street, Park Street Area, Kolkata, West Bengal, 700016",
    "Anna Salai, Mount Road, Chennai, Tamil Nadu, 600002",
    "Sector 17, Chandigarh, Punjab, 160017",
    "MI Road, Jaipur, Rajasthan, 302001",
    "FC Road, Shivajinagar, Pune, Maharashtra, 411005",
    "CG Road, Navrangpura, Ahmedabad, Gujarat, 380009",
    "Hazratganj, Lucknow, Uttar Pradesh, 226001"
  ]

  const FillFieldsToast: string := "\U{274C} Please fill all required fields"

  // ---------------------------------------------------------------------
  // The wizard

  datatype Form = Form(name: string, location: string, complaint: string)

  datatype Wizard = Wizard(step: int, form: Form, submitting: bool, processing: bool)

  /** A wizard state and the error toast an action raised, if any. */
  datatype Outcome = Outcome(wizard: Wizard, toast: Option<string>)

  const Initial: Wizard := Wizard(1, Form("", "", ""), false, false)

  /** `handleNext`: step 1 needs a complaint that is not blank, step 2 a
      location; otherwise the step advances by one. */
  function HandleNext(w: Wizard): (r: Outcome)
    ensures w.step == 1 && IsBlank(w.form.complaint) ==> r == Outcome(w, Some(FillFieldsToast))
    ensures w.step == 2 && w.form.location == "" ==> r == Outcome(w, Some(FillFieldsToast))
    ensures !(w.step == 1 && IsBlank(w.form.complaint)) && !(w.step == 2 && w.form.location == "") ==>
      r == Outcome(w.(step := w.step + 1), None)
  {
    TrimEmptyIffBlank(w.form.complaint);
    if w.step == 1 && Trim(w.form.complaint) == "" then Outcome(w, Some(FillFieldsToast))
    else if w.step == 2 && w.form.location == "" then Outcome(w, Some(FillFieldsToast))
    else Outcome(w.(step := w.step + 1), None)
  }

  /** `handleBack`. */
  function HandleBack(w: Wizard): (r: Wizard)
    ensures r.step == w.step - 1 && r.form == w.form
  {
    w.(step := w.step - 1)
  }

  /** `handleSubmit`: processing starts only for a non-blank complaint and a
      location; otherwise only the error toast appears. */
  function HandleSubmit(w: Wizard): (r: Outcome)
    ensures r.toast.None? <==> !IsBlank(w.form.complaint) && w.form.location != ""
    ensures r.toast.None? ==> r.wizard == w.(submitting := true, processing := true)
    ensures r.toast.Some? ==> r.wizard == w && r.toast == Some(FillFieldsToast)
  {
    TrimEmptyIffBlank(w.form.complaint);
    if Trim(w.form.complaint) == "" || w.form.location == "" then Outcome(w, Some(FillFieldsToast))
    else Outcome(w.(submitting := true, processing := true), None)
  }

  /** What the user can do on the page: type into the fields its step
      renders (the complaint on step 1, name and location on step 2), press
      the Next button of step 1 or 2, Back on step 2, or Edit and Confirm on
      the step-3 preview. */
  datatype Event =
    | TypeComplaint(text: string)
    | TypeLocation(text: string)
    | TypeName(text: string)
    | Next
    | Back
    | Edit
    | Confirm

  /** One user action, with the controls each step renders; an action whose
      control is not on screen changes nothing. The Next buttons are
      disabled while their field is empty. */
  function Dispatch(w: Wizard, e: Event): Wizard {
    match e
    case TypeComplaint(text) => if w.step == 1 then w.(form := w.form.(complaint := text)) else w
    case TypeLocation(text) => if w.step == 2 then w.(form := w.form.(location := text)) else w
    case TypeName(text) => if w.step == 2 then w.(form := w.form.(name := text)) else w
    case Next =>
      if (w.step == 1 && Trim(w.form.complaint) != "") || (w.step == 2 && w.form.location != "")
      then HandleNext(w).wizard else w
    case Back => if w.step == 2 then HandleBack(w) else w
    case Edit => if w.step == 3 then w.(step := 2) else w
    case Confirm => if w.step == 3 then HandleSubmit(w).wizard else w
  }

  function Run(w: Wizard, events: seq<Event>): Wizard
    decreases |events|
  {
    if |events| == 0 then w else Run(Dispatch(w, events[0]), events[1..])
  }

  /** What every reachable wizard state satisfies: one of the three steps
      is shown, past step 1 the complaint is not blank, and the preview is
      only shown with a location. */
  predicate Reachable(w: Wizard) {
    && 1 <= w.step <= 3
    && (w.step >= 2 ==> !IsBlank(w.form.complaint))
    && (w.step == 3 ==> w.form.location != "")
  }

  lemma DispatchKeepsReachable(w: Wizard, e: Event)
    requires Reachable(w)
    ensures Reachable(Dispatch(w, e))
  {
    TrimEmptyIffBlank(w.form.complaint);
    match e
    case Next =>
      if w.step == 1 && Trim(w.form.complaint) != "" {
        assert Dispatch(w, e) == w.(step := 2);
      } else if w.step == 2 && w.form.location != "" {
        assert Dispatch(w, e) == w.(step := 3);
      }
    case Confirm =>
      if w.step == 3 {
        assert Dispatch(w, e).form == w.form && Dispatch(w, e).step == 3;
      }
    case _ =>
  }

  /** Whatever the user does, the wizard shows one of its three steps, and
      confirming on the preview always starts processing. */
  lemma {:induction false} RunStaysReachable(w: Wizard, events: seq<Event>)
    requires Reachable(w)
    ensures Reachable(Run(w, events))
    ensures Run(w, events).step == 3 ==> HandleSubmit(Run(w, events)).toast.None?
    decreases |events|
  {
    if |events| > 0 {
      DispatchKeepsReachable(w, events[0]);
      RunStaysReachable(Dispatch(w, events[0]), events[1..]);
    }
  }

  lemma InitialReachable()
    ensures Reachable(Initial)
  {
  }

  // ---------------------------------------------------------------------
  // Location suggestions

  datatype LocationField = LocationField(value: string, showSuggestions: bool, suggestions: seq<string>)

  function MentionsPlace(typed: string): string -> bool {
    (location: string) => Contains(Lower(location), Lower(typed))
  }

  /** The candidates that contain `typed` without regard to case, in their
      order. */
  function Suggest(candidates: seq<string>, typed: string): (r: seq<string>)
    ensures IsSubseq(r, candidates)
    ensures forall i :: 0 <= i < |r| ==> Contains(Lower(r[i]), Lower(typed))
    ensures forall l :: l in candidates && Contains(Lower(l), Lower(typed)) ==> l in r
    ensures forall l :: multiset(r)[l] == if Contains(Lower(l), Lower(typed)) then multiset(candidates)[l] else 0
  {
    var filtered := Filter(candidates, MentionsPlace(typed));
    assert forall l :: l in candidates && Contains(Lower(l), Lower(typed)) ==> multiset(filtered)[l] > 0;
    filtered
  }

  /** `handleLocationChange`: for non-empty input the suggestions are the
      popular locations containing it without regard to case; clearing the
      field hides them and keeps the last list. */
  function OnLocationChange(f: LocationField, typed: string): (r: LocationField)
    ensures r.value == typed
    ensures |typed| > 0 ==> r.showSuggestions && r.suggestions == Suggest(PopularLocations, typed)
    ensures |typed| == 0 ==> !r.showSuggestions && r.suggestions == f.suggestions
  {
    if |typed| > 0 then LocationField(typed, true, Suggest(PopularLocations, typed))
    else f.(value := typed, showSuggestions := false)
  }

  /** Typing case-variants of the same text suggests the same locations. */
  lemma SuggestIgnoresCase(candidates: seq<string>, typed: string)
    ensures Suggest(candidates, Lower(typed)) == Suggest(candidates, typed)
  {
    LowerIdempotent(typed);
    FilterExt(candidates, MentionsPlace(Lower(typed)), MentionsPlace(typed));
  }

  /** The empty search text matches every candidate; the page only avoids
      listing them all by hiding the suggestions for empty input. */
  lemma SuggestEverythingForEmpty(candidates: seq<string>)
    ensures Suggest(candidates, "") == candidates
  {
    forall i | 0 <= i < |candidates|
      ensures MentionsPlace("")(candidates[i])
    {
      ContainsEmpty(Lower(candidates[i]));
    }
    FilterAll(candidates, MentionsPlace(""));
  }

  // ---------------------------------------------------------------------
  // Regions and mock addresses

  datatype Region = Delhi | Mumbai | Bangalore | Kolkata | Chennai | Default

  datatype Box = Box(latLo: real, latHi: real, lngLo: real, lngHi: real)

  predicate InBox(b: Box, lat: real, lng: real) {
    b.latLo <= lat <= b.latHi && b.lngLo <= lng <= b.lngHi
  }

  /** The inclusive coordinate box of each named region. */
  function BoxOf(region: Region): Box
    requires region != Default
  {
    match region
    case Delhi => Box(28.4, 28.9, 76.8, 77.5)
    case Mumbai => Box(18.9, 19.3, 72.7, 73.1)
    case Bangalore => Box(12.8, 13.2, 77.4, 77.8)
    case Kolkata => Box(22.4, 22.7, 88.2, 88.5)
    case Chennai => Box(12.8, 13.2, 80.1, 80.4)
  }

  /** `getRegionFromCoordinates`: the boxes are tried in order; a point in
      none of them is `default`. */
  function RegionOf(lat: real, lng: real): (r: Region)
    ensures r != Default ==> InBox(BoxOf(r), lat, lng)
    ensures r == Default <==> forall x: Region :: x != Default ==> !InBox(BoxOf(x), lat, lng)
  {
    if InBox(BoxOf(Delhi), lat, lng) then Delhi
    else if InBox(BoxOf(Mumbai), lat, lng) then Mumbai
    else if InBox(BoxOf(Bangalore), lat, lng) then Bangalore
    else if InBox(BoxOf(Kolkata), lat, lng) then Kolkata
    else if InBox(BoxOf(Chennai), lat, lng) then Chennai
    else Default
  }

  /** No point lies in two boxes, so the order of the tests is immaterial:
      a point in a region's box belongs to that region. */
  lemma RegionBoxesDisjoint(a: Region, b: Region, lat: real, lng: real)
    requires a != Default && b != Default && a != b
    ensures !(InBox(BoxOf(a), lat, lng) && InBox(BoxOf(b), lat, lng))
    ensures InBox(BoxOf(a), lat, lng) ==> RegionOf(lat, lng) == a
  {
  }

  const DelhiAddresses: seq<string> := [
    "123 Rajpath, India Gate, New Delhi, 110001",
    "456 Karol Bagh Market, Karol Bagh, New Delhi, 110005",
    "789 Lajpat Nagar Central Market, New Delhi, 110024",
    "321 Sarojini Nagar Market, New Delhi, 110023",
    "654 Janpath, Connaught Place, New Delhi, 110001"]

  const MumbaiAddresses: seq<string> := [
    "234 Linking Road, Bandra West, Mumbai, 400050",
    "567 Hill Road, Bandra West, Mumbai, 400050",
    "890 SV Road, Andheri West, Mumbai, 400058",
    "432 Carter Road, Bandra West, Mumbai, 400050",
    "765 Juhu Beach Road, Juhu, Mumbai, 400049"]

  const BangaloreAddresses: seq<string> := [
    "345 Brigade Road, Shivaji Nagar, Bangalore, 560001",
    "678 Commercial Street, Shivaji Nagar, Bangalore, 560001",
    "901 Koramangala 5th Block, Bangalore, 560095",
    "543 Indiranagar 100 Feet Road, Bangalore, 560038",
    "876 Jayanagar 4th Block, Bangalore, 560011"]

  const KolkataAddresses: seq<string> := [
    "456 Park Street, Park Street Area, Kolkata, 700016",
    "789 Camac Street, Park Street Area, Kolkata, 700017",
    "123 Gariahat Road, Gariahat, Kolkata, 700019",
    "654 Rashbehari Avenue, Kolkata, 700029",
    "987 Salt Lake Sector V, Kolkata, 700091"]

  const ChennaiAddresses: seq<string> := [
    "567 Anna Salai, Mount Road, Chennai, 600002",
    "890 T. Nagar Pondy Bazaar, Chennai, 600017",
    "234 Adyar Main Road, Chennai, 600020",
    "765 Velachery Main Road, Chennai, 600042",
    "432 OMR Thoraipakkam, Chennai, 600097"]

  const DefaultAddresses: seq<string> := [
    "123 Main Road, City Center, Your City, 110001",
    "456 Market Street, Commercial Area, Your City, 110002",
    "789 Park Avenue, Residential Area, Your City, 110003",
    "321 Station Road, Railway Colony, Your City, 110004",
    "654 Bus Stand Road, Transport Nagar, Your City, 110005"]

  function MockAddresses(region: Region): seq<string> {
    match region
    case Delhi => DelhiAddresses
    case Mumbai => MumbaiAddresses
    case Bangalore => BangaloreAddresses
    case Kolkata => KolkataAddresses
    case Chennai => ChennaiAddresses
    case Default => DefaultAddresses
  }

  /** `getMockAddress`, with `random` the value of `Math.random()`: one of
      the addresses of the point's region. */
  function MockAddress(lat: real, lng: real, random: real): (r: string)
    requires 0.0 <= random < 1.0
    ensures r in MockAddresses(RegionOf(lat, lng))
  {
    var addresses := MockAddresses(RegionOf(lat, lng));
    addresses[(random * |addresses| as real).Floor]
  }

  // ---------------------------------------------------------------------
  // Reverse-geocoded address

  /** The address parts of a reverse-geocoding answer; an absent part is
      the empty string, which is equally falsy. */
  datatype GeoAddress = GeoAddress(
    houseNumber: string, road: string, neighbourhood: string, suburb: string,
    city: string, town: string, village: string, state: string, postcode: string)

  /** `a || b` on strings. */
  function Or(a: string, b: string): string {
    if a != "" then a else b
  }

  function Piece(part: string, suffix: string): string {
    if part != "" then part + suffix else ""
  }

  /** The address text before clean-up: each present part in order, the
      house number followed by a space, the rest by a comma and a space,
      the postcode by nothing. */
  function RawAddress(a: GeoAddress): string {
    Piece(a.houseNumber, " ")
    + Piece(a.road, ", ")
    + Piece(Or(a.neighbourhood, a.suburb), ", ")
    + Piece(Or(Or(a.city, a.town), a.village), ", ")
    + Piece(a.state, ", ")
    + a.postcode
  }

  /** A comma followed only by whitespace is the last character `TrimEnd`
      keeps. */
  lemma {:induction false} CommaBeforeBlankTail(s: string, k: nat)
    requires k < |s| && s[k] == ',' && IsBlank(s[k + 1..])
    ensures TrimEnd(s) == s[..k + 1]
    decreases |s|
  {
    if |s| > k + 1 {
      assert s[k + 1..][|s| - 1 - (k + 1)] == s[|s| - 1];
      var p := s[..|s| - 1];
      assert p[k + 1..] == s[k + 1..][..|s| - 1 - (k + 1)];
      CommaBeforeBlankTail(p, k);
    }
  }

  /** When `TrimEnd` stops at a comma, that comma has only whitespace after
      it. */
  lemma TrailingCommaWitness(s: string)
    requires |TrimEnd(s)| > 0 && TrimEnd(s)[|TrimEnd(s)| - 1] == ','
    ensures var k := |TrimEnd(s)| - 1; s[k] == ',' && IsBlank(s[k + 1..])
  {
    var t := TrimEnd(s);
    assert s[|t| - 1] == t[|t| - 1];
    assert s[|t| - 1 + 1..] == s[|t|..];
  }

  /** Every comma followed only by whitespace ends what `TrimEnd` keeps. */
  lemma CommasBeforeBlankTail(s: string)
    ensures forall k :: 0 <= k < |s| && s[k] == ',' && IsBlank(s[k + 1..]) ==> TrimEnd(s) == s[..k + 1]
  {
    forall k | 0 <= k < |s| && s[k] == ',' && IsBlank(s[k + 1..])
      ensures TrimEnd(s) == s[..k + 1]
    {
      CommaBeforeBlankTail(s, k);
    }
  }

  /** `s.replace(/,\s*$/, "")`: removes a comma that only whitespace
      follows, together with that whitespace. */
  function StripTrailingComma(s: string): (r: string)
    ensures r != s <==> exists k :: 0 <= k < |s| && s[k] == ',' && IsBlank(s[k + 1..])
    ensures r != s ==> |r| < |s| && r == s[..|r|] && s[|r|] == ',' && IsBlank(s[|r| + 1..])
  {
    var t := TrimEnd(s);
    CommasBeforeBlankTail(s);
    if |t| > 0 && t[|t| - 1] == ',' then
      TrailingCommaWitness(s);
      t[..|t| - 1]
    else s
  }

  /** The address shown after reverse geocoding: the assembled parts, less
      a final comma and the blank tail after it, and nothing else. */
  function FormatAddress(a: GeoAddress): (r: string)
    ensures |r| <= |RawAddress(a)| && r == RawAddress(a)[..|r|]
    ensures r != RawAddress(a) ==> RawAddress(a)[|r|] == ',' && IsBlank(RawAddress(a)[|r| + 1..])
    ensures r != RawAddress(a) <==>
      exists k :: 0 <= k < |RawAddress(a)| && RawAddress(a)[k] == ',' && IsBlank(RawAddress(a)[k + 1..])
  {
    StripTrailingComma(RawAddress(a))
  }

  /** Without a postcode the text ends in ", " after the last present part
      (when there is one besides the house number), and exactly that is
      removed. */
  lemma FormatAddressWithoutPostcode(a: GeoAddress)
    requires a.postcode == ""
    requires a.road != "" || Or(a.neighbourhood, a.suburb) != ""
             || Or(Or(a.city, a.town), a.village) != "" || a.state != ""
    ensures FormatAddress(a) + ", " == RawAddress(a)
  {
    var raw := RawAddress(a);
    var x := raw[..|raw| - 2];
    assert raw == x + ", ";
    assert TrimEnd(raw) == TrimEnd(raw[..|raw| - 1]);
    assert raw[..|raw| - 1] == x + ",";
    assert TrimEnd(x + ",") == x + ",";
  }

  /** A postcode ending in a character other than a comma or whitespace
      leaves the text as assembled. */
  lemma FormatAddressWithPostcode(a: GeoAddress)
    requires a.postcode != ""
    requires var c := a.postcode[|a.postcode| - 1]; c != ',' && !IsWhitespace(c)
    ensures FormatAddress(a) == RawAddress(a)
  {
    var raw := RawAddress(a);
    assert raw[|raw| - 1] == a.postcode[|a.postcode| - 1];
    assert TrimEnd(raw) == raw;
  }

  // ---------------------------------------------------------------------
  // Completing a submission

  /** The analysis backend's answer; a missing or empty field is "". */
  datatype AnalysisResult = AnalysisResult(
    category: string, department: string, summary: string, urgency: string, referenceId: string)

  /** How the request to the analysis backend ended. */
  datatype BackendReply =
    | RequestFailed(message: string)
    | HttpError(status: nat)
    | Answered(result: AnalysisResult)

  /** The response check: category, department, summary and urgency must
      all be present. */
  predicate AcceptableResult(r: AnalysisResult) {
    r.category != "" && r.department != "" && r.summary != "" && r.urgency != ""
  }

  /** The backend's reference id, or the upper-cased first three letters of
      the department, a dash and the clock reading. */
  function ReferenceIdFor(r: AnalysisResult, now: nat): (id: string)
    ensures r.referenceId != "" ==> id == r.referenceId
    ensures r.referenceId == "" ==>
      var prefix := Substring(r.department, 0, 3);
      && |id| == |prefix| + 1 + |NatToString(now)|
      && id[..|prefix|] == Upper(prefix)
      && id[|prefix|] == '-'
      && id[|prefix| + 1..] == NatToString(now)
  {
    if r.referenceId != "" then r.referenceId
    else Upper(Substring(r.department, 0, 3)) + "-" + NatToString(now)
  }

  /** The complaint handed to the store. */
  function BuildComplaint(f: Form, r: AnalysisResult, now: nat): (c: Store.Complaint)
    ensures c.referenceId == ReferenceIdFor(r, now)
    ensures c.name == (if f.name == "" then "Anonymous" else f.name)
    ensures c.status == "New"
    ensures c.title == r.summary && c.description == f.complaint && c.location == f.location
    ensures c.department == r.department && c.urgency == r.urgency && c.timestamp == now
  {
    Store.Complaint(
      NatToString(now), ReferenceIdFor(r, now), Or(f.name, "Anonymous"), "user@example.com", "",
      r.summary, f.complaint, r.department, r.urgency, f.location, now, "New",
      Some(Store.AiAnalysis(r.category, r.urgency, r.department, "3-5 business days", 0)))
  }

  /** The history may hold at most this many entries. */
  const HistoryLimit: nat := 10

  /** The history write: the new entry first, then the older ones, cut to
      ten. */
  function PushHistory(item: HistoryItem, history: seq<HistoryItem>): (r: seq<HistoryItem>)
    ensures |r| == if |history| < HistoryLimit then |history| + 1 else HistoryLimit
    ensures r[0] == item
    ensures r[1..] == history[..|r| - 1]
  {
    Take([item] + history, HistoryLimit)
  }

  /** The summary stored for the result page. */
  datatype ResultSummary = ResultSummary(
    status: string, department: string, referenceId: string, category: string, summary: string,
    urgency: string, estimatedResolution: string, contactNumber: string)

  /** Everything `handleProcessingComplete` changes: the wizard, the store,
      the history written (if it was), the result summary (if written), the
      toast, and whether the result page is opened. */
  datatype Completion = Completion(
    wizard: Wizard,
    store: Store.State,
    history: Option<seq<HistoryItem>>,
    result: Option<ResultSummary>,
    toast: string,
    navigate: bool)

  const FailurePrefix: string := "\U{274C} Failed to submit complaint. "

  /** The toast for a failure with the given error message. */
  function FailureToast(message: string): (r: string)
    ensures Contains(message, "fetch") ==>
      r == FailurePrefix + "Please make sure the backend server is running on localhost:8000"
    ensures !Contains(message, "fetch") ==> r == FailurePrefix + message
  {
    FailurePrefix
    + (if Contains(message, "fetch") then "Please make sure the backend server is running on localhost:8000"
       else message)
  }

  function Failed(w: Wizard, store: Store.State, message: string): Completion {
    Completion(w.(processing := false, submitting := false), store, None, None, FailureToast(message), false)
  }

  /** `handleProcessingComplete`, given the backend's reply, the stored
      history, the store, the clock and the rendered date. */
  function ProcessingComplete(w: Wizard, reply: BackendReply, stored: StoredHistory,
                              store: Store.State, now: nat, date: string): (r: Completion)
    ensures r.navigate <==> reply.Answered? && AcceptableResult(reply.result) && !stored.Malformed?
    ensures !r.navigate ==> !r.wizard.processing && !r.wizard.submitting && r.history.None?
    ensures !(reply.Answered? && AcceptableResult(reply.result)) ==> r.store == store
    ensures reply.Answered? && AcceptableResult(reply.result) ==>
      r.store == Store.AddComplaint(store, BuildComplaint(w.form, reply.result, now), now)
    ensures r.navigate ==>
      && r.history.Some?
      && r.history.value == PushHistory(
           HistoryItem(NatToString(now), reply.result.summary, w.form.location, reply.result.department,
                       "Sent", date, ReferenceIdFor(reply.result, now)),
           StoredItems(stored))
      && |r.history.value| <= HistoryLimit
      && r.wizard == w
  {
    match reply
    case RequestFailed(message) => Failed(w, store, message)
    case HttpError(status) => Failed(w, store, "HTTP error! status: " + NatToString(status))
    case Answered(result) =>
      if !AcceptableResult(result) then
        Failed(w, store, "Invalid response from server - missing required fields")
      else
        var referenceId := ReferenceIdFor(result, now);
        var added := Store.AddComplaint(store, BuildComplaint(w.form, result, now), now);
        match stored
        case Malformed(message, _) => Failed(w, added, message)
        case _ =>
          var item := HistoryItem(NatToString(now), result.summary, w.form.location, result.department,
                                  "Sent", date, referenceId);
          var summary := ResultSummary("success", result.department, referenceId, result.category,
                                       result.summary, result.urgency, "3-5 business days", "1800-111-7070");
          Completion(w, added, Some(PushHistory(item, StoredItems(stored))), Some(summary),
                     "\U{2705} Complaint analyzed and submitted successfully!", true)
  }
}
