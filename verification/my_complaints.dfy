/** The "My Complaints" page (app/my-complaints/page.tsx): the search and
    status filter, the CSV export, the export button and the filter banner.
    The page reads fields the store's complaint record does not declare
    (`summary`, `created_at`); the model gives its rows exactly the fields the
    page reads, with the creation date already rendered as text. */
module MyComplaints {
  import opened Text
  import opened Seqs

  datatype Listed = Listed(
    referenceId: string,
    summary: string,
    status: string,
    department: string,
    location: string,
    createdDate: string)

  /** The status selection that admits everything. */
  const All: string := "all"

  /** The search condition: the term occurs, ignoring case, in the summary,
      the reference id or the location. */
  predicate SearchHit(c: Listed, term: string) {
    || Contains(Lower(c.summary), Lower(term))
    || Contains(Lower(c.referenceId), Lower(term))
    || Contains(Lower(c.location), Lower(term))
  }

  /** The status condition: everything for "all", otherwise equality
      ignoring case. */
  predicate StatusHit(c: Listed, status: string) {
    status == All || Lower(c.status) == Lower(status)
  }

  predicate Shown(c: Listed, term: string, status: string) {
    SearchHit(c, term) && StatusHit(c, status)
  }

  function ShownBy(term: string, status: string): Listed -> bool {
    (c: Listed) => Shown(c, term, status)
  }

  /** `filteredComplaints`: the rows meeting both conditions, in order. */
  function FilteredComplaints(cs: seq<Listed>, term: string, status: string): (r: seq<Listed>)
    ensures IsSubseq(r, cs)
    ensures forall i :: 0 <= i < |r| ==> SearchHit(r[i], term) && (status == All || Lower(r[i].status) == Lower(status))
    ensures forall c :: multiset(r)[c] == if Shown(c, term, status) then multiset(cs)[c] else 0
  {
    Filter(cs, ShownBy(term, status))
  }

  /** An empty term with status "all" shows every row. */
  lemma FilterDefaultsShowAll(cs: seq<Listed>)
    ensures FilteredComplaints(cs, "", All) == cs
  {
    forall i | 0 <= i < |cs|
      ensures Shown(cs[i], "", All)
    {
      ContainsEmpty(Lower(cs[i].summary));
    }
    FilterAll(cs, ShownBy("", All));
  }

  /** Terms and statuses equal up to case select the same rows. */
  lemma FilterIgnoresCase(cs: seq<Listed>, term: string, term': string, status: string, status': string)
    requires Lower(term) == Lower(term')
    requires Lower(status) == Lower(status')
    requires status == All <==> status' == All
    ensures FilteredComplaints(cs, term, status) == FilteredComplaints(cs, term', status')
  {
    FilterExt(cs, ShownBy(term, status), ShownBy(term', status'));
  }

  /** The CSV header row. */
  const Header: seq<string> := ["Reference ID", "Summary", "Status", "Department", "Location", "Created Date"]

  /** The six cells of one row, in header order. */
  function Row(c: Listed): (r: seq<string>)
    ensures |r| == |Header|
  {
    [c.referenceId, c.summary, c.status, c.department, c.location, c.createdDate]
  }

  /** A row as text: its cells joined by commas, without quoting. */
  function Line(cells: seq<string>): string {
    Join(cells, ",")
  }

  /** The text lines of the data rows, in order. */
  function Lines(cs: seq<Listed>): (r: seq<string>)
    ensures |r| == |cs|
    ensures forall i :: 0 <= i < |cs| ==> r[i] == Line(Row(cs[i]))
  {
    if |cs| == 0 then [] else [Line(Row(cs[0]))] + Lines(cs[1..])
  }

  /** `csvContent`: the header line, then one line per row, separated by
      newlines. */
  function Csv(cs: seq<Listed>): (r: string)
    ensures IsPrefix(Line(Header), r)
  {
    CsvStartsWithHeader(cs);
    Join([Line(Header)] + Lines(cs), "\n")
  }

  lemma {:induction false} JoinFirst(parts: seq<string>, sep: string)
    requires |parts| > 0
    ensures IsPrefix(parts[0], Join(parts, sep))
    decreases |parts|
  {
    if |parts| > 1 {
      assert Join(parts, sep) == parts[0] + (sep + Join(parts[1..], sep));
    }
  }

  lemma CsvStartsWithHeader(cs: seq<Listed>)
    ensures IsPrefix(Line(Header), Join([Line(Header)] + Lines(cs), "\n"))
  {
    JoinFirst([Line(Header)] + Lines(cs), "\n");
  }

  /** With nothing to export the file is the header line alone. */
  lemma CsvEmpty()
    ensures Csv([]) == Line(Header)
  {
    assert [Line(Header)] + Lines([]) == [Line(Header)];
  }

  /** One more row adds one line at the end. */
  lemma CsvSnoc(cs: seq<Listed>, c: Listed)
    ensures Csv(cs + [c]) == Csv(cs) + "\n" + Line(Row(c))
  {
    var lines := [Line(Header)] + Lines(cs);
    assert Lines(cs + [c]) == Lines(cs) + [Line(Row(c))];
    assert [Line(Header)] + Lines(cs + [c]) == lines + [Line(Row(c))];
    JoinSnoc(lines, Line(Row(c)), "\n");
  }

  /** The export button is disabled exactly when no row passes the filter. */
  function ExportDisabled(cs: seq<Listed>, term: string, status: string): (r: bool)
    ensures r <==> forall i :: 0 <= i < |cs| ==> !Shown(cs[i], term, status)
  {
    CountZero(cs, ShownBy(term, status));
    |FilteredComplaints(cs, term, status)| == 0
  }

  /** The filter inputs and the "Showing X of Y" banner they produce. */
  datatype Filters = Filters(term: string, status: string)

  datatype Banner = NoBanner | Banner(showing: nat, outOf: nat)

  function BannerFor(cs: seq<Listed>, f: Filters): (r: Banner)
    ensures r.Banner? <==> f.term != "" || f.status != All
    ensures r.Banner? ==> r.showing == Count(cs, ShownBy(f.term, f.status)) && r.outOf == |cs|
    ensures r.Banner? ==> r.showing <= r.outOf
  {
    if f.term != "" || f.status != All then Banner(|FilteredComplaints(cs, f.term, f.status)|, |cs|)
    else NoBanner
  }

  /** "Clear filters". */
  function Clear(f: Filters): (r: Filters)
    ensures r.term == "" && r.status == All
  {
    Filters("", All)
  }

  /** After clearing, the banner is gone and every row is listed. */
  lemma ClearShowsEverything(cs: seq<Listed>, f: Filters)
    ensures BannerFor(cs, Clear(f)).NoBanner?
    ensures FilteredComplaints(cs, Clear(f).term, Clear(f).status) == cs
  {
    FilterDefaultsShowAll(cs);
  }
}
