/** The admin dashboard (app/admin/page.tsx): the department / search /
    status filter over the store's complaints, the per-complaint status
    actions, the badge colour lookups and the urgent panel. */
module AdminPanel {
  import opened Text
  import opened Seqs
  import opened Store
  import ComplaintForm

  /** The selection that admits every department or every status. */
  const All: string := "all"

  /** The department condition: everything for "all", otherwise the exact,
      case-sensitive department id. */
  predicate DepartmentSelected(c: Complaint, department: string) {
    department == All || c.department == department
  }

  /** The search condition: the term occurs in the title, the description
      or the name, all compared in lower case. */
  predicate SearchHit(c: Complaint, term: string) {
    || Contains(Lower(c.title), Lower(term))
    || Contains(Lower(c.description), Lower(term))
    || Contains(Lower(c.name), Lower(term))
  }

  predicate StatusSelected(c: Complaint, status: string) {
    status == All || c.status == status
  }

  predicate Shown(c: Complaint, department: string, term: string, status: string) {
    DepartmentSelected(c, department) && SearchHit(c, term) && StatusSelected(c, status)
  }

  function ShownBy(department: string, term: string, status: string): Complaint -> bool {
    (c: Complaint) => Shown(c, department, term, status)
  }

  /** `filteredComplaints`: the complaints meeting all three conditions,
      each as often as in the store and in store order. */
  function FilteredComplaints(cs: seq<Complaint>, department: string, term: string, status: string)
    : (r: seq<Complaint>)
    ensures IsSubseq(r, cs)
    ensures forall i :: 0 <= i < |r| ==>
      && (department == All || r[i].department == department)
      && (status == All || r[i].status == status)
      && SearchHit(r[i], term)
    ensures forall c :: multiset(r)[c] == if Shown(c, department, term, status) then multiset(cs)[c] else 0
  {
    Filter(cs, ShownBy(department, term, status))
  }

  /** With no selection and an empty term the list is the whole store. */
  lemma FilterDefaultsShowAll(cs: seq<Complaint>)
    ensures FilteredComplaints(cs, All, "", All) == cs
  {
    forall i | 0 <= i < |cs|
      ensures Shown(cs[i], All, "", All)
    {
      ContainsEmpty(Lower(cs[i].title));
    }
    FilterAll(cs, ShownBy(All, "", All));
  }

  /** The search ignores case: two terms equal up to case select alike. */
  lemma SearchIgnoresCase(cs: seq<Complaint>, department: string, term: string, other: string, status: string)
    requires Lower(term) == Lower(other)
    ensures FilteredComplaints(cs, department, term, status) == FilteredComplaints(cs, department, other, status)
  {
    FilterExt(cs, ShownBy(department, term, status), ShownBy(department, other, status));
  }

  /** In particular an upper-cased term finds the same complaints. */
  lemma SearchUpperCase(cs: seq<Complaint>, department: string, term: string, status: string)
    ensures FilteredComplaints(cs, department, Upper(term), status) == FilteredComplaints(cs, department, term, status)
  {
    LowerOfUpper(term);
    SearchIgnoresCase(cs, department, Upper(term), term, status);
  }

  /** The buttons a complaint's row offers. */
  datatype Actions = Actions(markInProgress: bool, markResolved: bool)

  /** "Mark In Progress" unless it already is; "Mark Resolved" unless it
      already is. */
  function ActionsFor(c: Complaint): (r: Actions)
    ensures r.markInProgress <==> c.status != "In Progress"
    ensures r.markResolved <==> c.status != "Resolved"
    ensures r.markInProgress || r.markResolved
  {
    Actions(c.status != "In Progress", c.status != "Resolved")
  }

  /** A row's button calls `updateComplaintStatus` with the complaint's
      internal id; afterwards that row no longer offers the same button. */
  lemma ClickRetiresButton(st: State, i: nat, target: string, now: nat)
    requires i < |st.complaints|
    requires target == "In Progress" || target == "Resolved"
    ensures var r := UpdateComplaintStatus(st, st.complaints[i].id, target, now);
            && r.complaints[i].status == target
            && (target == "In Progress" ==> !ActionsFor(r.complaints[i]).markInProgress)
            && (target == "Resolved" ==> !ActionsFor(r.complaints[i]).markResolved)
  {
    assert Matches(st.complaints[i], st.complaints[i].id);
  }

  const GrayBadge: string := "bg-gray-100 text-gray-800 border-gray-200"
  const GreenBadge: string := "bg-green-100 text-green-800 border-green-200"
  const BlueBadge: string := "bg-blue-100 text-blue-800 border-blue-200"
  const OrangeBadge: string := "bg-orange-100 text-orange-800 border-orange-200"
  const RedBadge: string := "bg-red-100 text-red-800 border-red-200"
  const YellowBadge: string := "bg-yellow-100 text-yellow-800 border-yellow-200"

  /** `getStatusColor`: total, gray exactly for the statuses it does not
      know, and a different colour for each one it does. */
  function StatusColor(status: string): (r: string)
    ensures r == GrayBadge <==> status !in {"Resolved", "In Progress", "New"}
    ensures status == "Resolved" <==> r == GreenBadge
    ensures status == "In Progress" <==> r == BlueBadge
    ensures status == "New" <==> r == OrangeBadge
  {
    match status
    case "Resolved" => GreenBadge
    case "In Progress" => BlueBadge
    case "New" => OrangeBadge
    case _ => GrayBadge
  }

  /** `getUrgencyColor`, likewise for the three urgency levels. */
  function UrgencyColor(urgency: string): (r: string)
    ensures r == GrayBadge <==> urgency !in {"High", "Medium", "Low"}
    ensures urgency == "High" <==> r == RedBadge
    ensures urgency == "Medium" <==> r == YellowBadge
    ensures urgency == "Low" <==> r == GreenBadge
  {
    match urgency
    case "High" => RedBadge
    case "Medium" => YellowBadge
    case "Low" => GreenBadge
    case _ => GrayBadge
  }

  /** The urgent alert card: absent without urgent complaints, otherwise it
      announces how many there are and lists the first three of them. */
  datatype UrgentCard = NoUrgentCard | UrgentCard(announced: nat, listed: seq<Complaint>)

  function UrgentPanel(cs: seq<Complaint>): (r: UrgentCard)
    ensures r.NoUrgentCard? <==> forall i :: 0 <= i < |cs| ==> !IsUrgent(cs[i])
    ensures r.UrgentCard? ==>
      && r.announced == Count(cs, IsUrgent)
      && 1 <= |r.listed| <= 3 && |r.listed| <= |Urgent(cs)|
      && r.listed == Urgent(cs)[..|r.listed|]
      && (|r.listed| < 3 ==> r.listed == Urgent(cs))
  {
    var u := Urgent(cs);
    CountZero(cs, IsUrgent);
    if |u| == 0 then NoUrgentCard else UrgentCard(|u|, Take(u, 3))
  }

  /** The complaint id a row displays: the reference id when there is one. */
  function DisplayId(c: Complaint): (r: string)
    ensures c.referenceId != "" ==> r == c.referenceId
    ensures c.referenceId == "" ==> r == c.id
  {
    if c.referenceId != "" then c.referenceId else c.id
  }

  /** A complaint the complaint form stores always has a reference id, so
      the admin row shows that id and never the internal one. */
  lemma FormComplaintShowsReferenceId(f: ComplaintForm.Form, result: ComplaintForm.AnalysisResult, now: nat)
    ensures DisplayId(ComplaintForm.BuildComplaint(f, result, now)) == ComplaintForm.ReferenceIdFor(result, now)
    ensures DisplayId(ComplaintForm.BuildComplaint(f, result, now)) != ""
  {
    var id := ComplaintForm.ReferenceIdFor(result, now);
    if result.referenceId == "" {
      assert |id| >= 1;
    }
  }
}
