/** The citizen dashboard (app/dashboard/page.tsx): five built-in sample
    complaints followed by the stored history, the per-status counts over
    that list, the success rate, the impact score and the rejection-reason
    box. */
module Dashboard {
  import opened Optional
  import opened Seqs
  import opened ComplaintHistory

  /** One dashboard row; only the samples carry a rejection reason. */
  datatype Entry = Entry(
    id: string,
    summary: string,
    location: string,
    department: string,
    status: string,
    date: string,
    referenceId: string,
    rejectionReason: Option<string>)

  function FromHistory(h: HistoryItem): Entry {
    Entry(h.id, h.summary, h.location, h.department, h.status, h.date, h.referenceId, None)
  }

  function FromHistoryAll(hs: seq<HistoryItem>): (r: seq<Entry>)
    ensures |r| == |hs|
    ensures forall i :: 0 <= i < |hs| ==> r[i] == FromHistory(hs[i])
  {
    if |hs| == 0 then [] else [FromHistory(hs[0])] + FromHistoryAll(hs[1..])
  }

  const RateLimitReason: string :=
    "Rate Limiting: Too many complaints submitted from this device in a short time. Please wait 24 hours before submitting new complaints to prevent system overload."
  const JurisdictionReason: string :=
    "Out of Jurisdiction: We currently only handle civic issues in your city. Private bank issues should be reported directly to the bank's customer service or RBI banking ombudsman."

  const Sample1: Entry := Entry("1",
    "Traffic signal not working at main intersection causing accidents during rush hour",
    "Main Market Road, Commercial District", "Transport", "Resolved", "2024-01-15", "TRA-1234", None)
  const Sample2: Entry := Entry("2",
    "Street lights not working in residential area making it unsafe at night",
    "Green Park Colony, Sector 12", "Safety", "Processing", "2024-01-18", "SAF-5678", None)
  const Sample3: Entry := Entry("3",
    "Water supply disrupted for 3 days in apartment complex",
    "Sunrise Apartments, Block A", "Utilities", "Sent", "2024-01-20", "UTI-9012", None)
  const Sample4: Entry := Entry("4",
    "Pothole on main road needs immediate repair",
    "MG Road, Near City Mall", "Infrastructure", "Rejected", "2024-01-12", "INF-3456", Some(RateLimitReason))
  const Sample5: Entry := Entry("5",
    "Issue with private bank ATM not dispensing cash properly",
    "HDFC Bank ATM, Commercial Street", "General", "Rejected", "2024-01-10", "GEN-7890", Some(JurisdictionReason))

  /** `mockDashboardData`. */
  const Samples: seq<Entry> := [Sample1, Sample2, Sample3, Sample4, Sample5]

  /** The list the page shows: the samples, then the stored history in its
      stored order. Unparsable stored text makes the effect throw, so no
      list is produced. */
  function AllComplaints(stored: StoredHistory): (r: Option<seq<Entry>>)
    ensures r.None? <==> stored.Malformed?
    ensures r.Some? ==>
      && |r.value| == 5 + |StoredItems(stored)|
      && r.value[..5] == Samples
      && forall i :: 0 <= i < |StoredItems(stored)| ==> r.value[5 + i] == FromHistory(StoredItems(stored)[i])
  {
    if stored.Malformed? then None
    else
      var r := Samples + FromHistoryAll(StoredItems(stored));
      assert r[..5] == Samples;
      Some(r)
  }

  function StatusIs(status: string): Entry -> bool {
    (e: Entry) => e.status == status
  }

  datatype DashboardStats = DashboardStats(total: nat, resolved: nat, processing: nat, sent: nat, rejected: nat)

  /** The four statuses a dashboard entry is declared to have. */
  predicate KnownStatus(e: Entry) {
    e.status in {"Resolved", "Processing", "Sent", "Rejected"}
  }

  /** The four status counts never exceed the number of entries, and reach
      it when every status is one of the four. */
  lemma {:induction false} StatusCountsBound(es: seq<Entry>)
    ensures Count(es, StatusIs("Resolved")) + Count(es, StatusIs("Processing"))
            + Count(es, StatusIs("Sent")) + Count(es, StatusIs("Rejected")) <= |es|
    ensures (forall i :: 0 <= i < |es| ==> KnownStatus(es[i])) ==>
      Count(es, StatusIs("Resolved")) + Count(es, StatusIs("Processing"))
      + Count(es, StatusIs("Sent")) + Count(es, StatusIs("Rejected")) == |es|
    decreases |es|
  {
    if |es| > 0 {
      StatusCountsBound(es[1..]);
    }
  }

  /** The stats effect: the length and the number of entries with each
      status. */
  function ComputeStats(es: seq<Entry>): (r: DashboardStats)
    ensures r.total == |es|
    ensures r.resolved == Count(es, StatusIs("Resolved")) && r.processing == Count(es, StatusIs("Processing"))
    ensures r.sent == Count(es, StatusIs("Sent")) && r.rejected == Count(es, StatusIs("Rejected"))
    ensures r.resolved + r.processing + r.sent + r.rejected <= r.total
    ensures (forall i :: 0 <= i < |es| ==> KnownStatus(es[i])) ==>
      r.resolved + r.processing + r.sent + r.rejected == r.total
  {
    StatusCountsBound(es);
    DashboardStats(|es|, |Filter(es, StatusIs("Resolved"))|, |Filter(es, StatusIs("Processing"))|,
                   |Filter(es, StatusIs("Sent"))|, |Filter(es, StatusIs("Rejected"))|)
  }

  /** With nothing stored the dashboard counts only the samples. */
  lemma EmptyStorageStats()
    ensures AllComplaints(Absent).Some?
    ensures ComputeStats(AllComplaints(Absent).value) == DashboardStats(5, 1, 1, 1, 2)
  {
    var es := AllComplaints(Absent).value;
    assert es == Samples + [];
    assert es == Samples;
    SampleCounts();
  }

  /** The sample list has one resolved, one processing, one sent and two
      rejected entries. */
  lemma SampleCounts()
    ensures Count(Samples, StatusIs("Resolved")) == 1 && Count(Samples, StatusIs("Processing")) == 1
    ensures Count(Samples, StatusIs("Sent")) == 1 && Count(Samples, StatusIs("Rejected")) == 2
  {
    SampleCount(StatusIs("Resolved"));
    SampleCount(StatusIs("Processing"));
    SampleCount(StatusIs("Sent"));
    SampleCount(StatusIs("Rejected"));
  }

  function Indicator(b: bool): nat {
    if b then 1 else 0
  }

  /** Counting over the samples, one entry at a time. */
  lemma SampleCount(p: Entry -> bool)
    ensures Count(Samples, p) == Indicator(p(Sample1)) + Indicator(p(Sample2)) + Indicator(p(Sample3))
                                 + Indicator(p(Sample4)) + Indicator(p(Sample5))
  {
    var s := Samples;
    assert s[1..] == [Sample2, Sample3, Sample4, Sample5];
    assert [Sample2, Sample3, Sample4, Sample5][1..] == [Sample3, Sample4, Sample5];
    assert [Sample3, Sample4, Sample5][1..] == [Sample4, Sample5];
    assert [Sample4, Sample5][1..] == [Sample5];
    assert Count([Sample5], p) == Indicator(p(Sample5));
    assert Count([Sample4, Sample5], p) == Indicator(p(Sample4)) + Indicator(p(Sample5));
    assert Count([Sample3, Sample4, Sample5], p) == Indicator(p(Sample3)) + Indicator(p(Sample4)) + Indicator(p(Sample5));
  }

  /** With entries stored, the list is the samples followed by them. */
  lemma StoredList(items: seq<HistoryItem>)
    ensures AllComplaints(Items(items)) == Some(Samples + FromHistoryAll(items))
  {
  }

  /** Entries after the samples add to the sample counts: each count is the
      samples' plus the entries' own. */
  lemma StatsAfterSamples(h: seq<Entry>)
    ensures var s := ComputeStats(Samples + h);
            && s.total == 5 + |h|
            && s.resolved == 1 + Count(h, StatusIs("Resolved"))
            && s.processing == 1 + Count(h, StatusIs("Processing"))
            && s.sent == 1 + Count(h, StatusIs("Sent"))
            && s.rejected == 2 + Count(h, StatusIs("Rejected"))
  {
    SampleCounts();
    CountAppend(Samples, h, StatusIs("Resolved"));
    CountAppend(Samples, h, StatusIs("Processing"));
    CountAppend(Samples, h, StatusIs("Sent"));
    CountAppend(Samples, h, StatusIs("Rejected"));
  }

  /** Counts that could have come from one list. */
  predicate Consistent(s: DashboardStats) {
    s.resolved + s.processing + s.sent + s.rejected <= s.total
  }

  /** `Math.round((resolved + processing) / total * 100)`, 0 for an empty
      list: the integer nearest to the percentage, halves rounded up. */
  function SuccessRate(s: DashboardStats): (r: nat)
    ensures s.total == 0 ==> r == 0
    ensures s.total > 0 ==>
      2 * r * s.total - s.total <= 200 * (s.resolved + s.processing) < 2 * r * s.total + s.total
    ensures Consistent(s) ==> r <= 100
  {
    if s.total == 0 then 0
    else
      var accepted := s.resolved + s.processing;
      var r := (200 * accepted + s.total) / (2 * s.total);
      DivBounds(200 * accepted + s.total, 2 * s.total);
      if accepted <= s.total then
        DivBelow(200 * accepted + s.total, 2 * s.total, 101);
        r
      else r
  }

  lemma DivBounds(x: nat, d: nat)
    requires d > 0
    ensures d * (x / d) <= x < d * (x / d) + d
  {
  }

  lemma DivBelow(x: nat, d: nat, q: nat)
    requires d > 0 && x < d * q
    ensures x / d < q
  {
    DivBounds(x, d);
    if x / d >= q {
      MulMono(d, q, x / d);
    }
  }

  lemma MulMono(d: nat, a: nat, b: nat)
    requires a <= b
    ensures d * a <= d * b
  {
  }

  /** The "Impact Score": 100 points per resolved and 50 per processing
      complaint. */
  function ImpactScore(s: DashboardStats): (r: nat)
    ensures r % 50 == 0
    ensures r == 50 * (2 * s.resolved + s.processing)
    ensures Consistent(s) ==> r <= 100 * s.total
  {
    s.resolved * 100 + s.processing * 50
  }

  /** The rejection box of one entry: shown with its reason only for a
      rejected entry whose reason is a non-empty string. */
  function RejectionBox(e: Entry): (r: Option<string>)
    ensures r.Some? <==> e.status == "Rejected" && e.rejectionReason.Some? && e.rejectionReason.value != ""
    ensures r.Some? ==> r.value == e.rejectionReason.value
  {
    if e.status == "Rejected" && e.rejectionReason.Some? && e.rejectionReason.value != "" then e.rejectionReason
    else None
  }

  /** Entries built from the stored history never show a rejection box. */
  lemma HistoryNeverRejectionBox(h: HistoryItem)
    ensures RejectionBox(FromHistory(h)).None?
  {
  }
}
