/** The client-side complaint and notification store
    (contexts/realtime-context.tsx). Every operation is a pure function from
    the current lists to the new ones; `now` is the clock reading
    (`Date.now()`) in milliseconds, which also serves as the ISO timestamp
    and, written in decimal, as the notification id. */
module Store {
  import opened Optional
  import opened Text
  import opened Seqs

  datatype AiAnalysis = AiAnalysis(
    category: string,
    priority: string,
    department: string,
    estimatedResolutionTime: string,
    similarComplaints: int)

  /** A complaint; `timestamp` is its submission time in milliseconds. */
  datatype Complaint = Complaint(
    id: string,
    referenceId: string,
    name: string,
    email: string,
    phone: string,
    title: string,
    description: string,
    department: string,
    urgency: string,
    location: string,
    timestamp: int,
    status: string,
    aiAnalysis: Option<AiAnalysis>)

  /** The four notification types the store declares. */
  datatype NotificationType = StatusUpdate | Assignment | Resolution | General

  datatype Notification = Notification(
    id: string,
    title: string,
    message: string,
    kind: NotificationType,
    timestamp: int,
    read: bool,
    complaintId: Option<string>,
    oldStatus: Option<string>,
    newStatus: Option<string>)

  /** The two lists the store holds, newest first. */
  datatype State = State(complaints: seq<Complaint>, notifications: seq<Notification>)

  /** Two submissions closer than this many milliseconds may be duplicates. */
  const DuplicateWindowMs: int := 60000

  function Abs(x: int): nat {
    if x < 0 then -x else x
  }

  /** `existing` looks like an earlier submission of `c`: same title and
      description up to case, same email, less than a minute apart. */
  predicate SimilarTo(existing: Complaint, c: Complaint) {
    && Lower(existing.title) == Lower(c.title)
    && Lower(existing.description) == Lower(c.description)
    && existing.email == c.email
    && Abs(existing.timestamp - c.timestamp) < DuplicateWindowMs
  }

  predicate IsDuplicate(prev: seq<Complaint>, c: Complaint) {
    exists i :: 0 <= i < |prev| && SimilarTo(prev[i], c)
  }

  /** Against one stored complaint with the same title and description up
      to case and the same email, a submission counts as a duplicate exactly
      when the two timestamps are less than a minute apart, in either order. */
  lemma DuplicateWindow(prev: seq<Complaint>, e: Complaint, c: Complaint)
    requires Lower(e.title) == Lower(c.title) && Lower(e.description) == Lower(c.description)
    requires e.email == c.email
    requires !IsDuplicate(prev, c)
    ensures IsDuplicate(prev + [e], c) <==> -DuplicateWindowMs < e.timestamp - c.timestamp < DuplicateWindowMs
  {
    var all := prev + [e];
    if IsDuplicate(all, c) {
      var i :| 0 <= i < |all| && SimilarTo(all[i], c);
      assert i == |prev|;
    } else {
      assert all[|prev|] == e;
    }
  }

  /** The "Complaint Submitted" notification of `addComplaint`. */
  function SubmittedNotice(c: Complaint, now: nat): Notification {
    Notification(NatToString(now), "Complaint Submitted",
      "Your complaint \"" + c.title + "\" has been submitted successfully.",
      General, now, false, Some(c.referenceId), None, None)
  }

  /** `addComplaint`: a near-duplicate of a stored complaint changes nothing;
      otherwise the complaint goes first and one unread "general"
      notification about it goes first among the notifications. */
  function AddComplaint(st: State, c: Complaint, now: nat): (r: State)
    ensures IsDuplicate(st.complaints, c) ==> r == st
    ensures !IsDuplicate(st.complaints, c) ==>
      && |r.complaints| == |st.complaints| + 1
      && r.complaints[0] == c && r.complaints[1..] == st.complaints
      && |r.notifications| == |st.notifications| + 1
      && r.notifications[1..] == st.notifications
      && r.notifications[0].kind == General
      && !r.notifications[0].read
      && r.notifications[0].complaintId == Some(c.referenceId)
  {
    if IsDuplicate(st.complaints, c) then st
    else State([c] + st.complaints, [SubmittedNotice(c, now)] + st.notifications)
  }

  /** Submitting the same complaint a second time is suppressed. */
  lemma AddComplaintTwice(st: State, c: Complaint, now: nat, later: nat)
    ensures AddComplaint(AddComplaint(st, c, now), c, later) == AddComplaint(st, c, now)
  {
    var r := AddComplaint(st, c, now);
    if !IsDuplicate(st.complaints, c) {
      assert SimilarTo(r.complaints[0], c);
    }
  }

  /** `addNotification`: the new notification is unread, stamped `now`, and
      goes first. */
  function AddNotification(ns: seq<Notification>, title: string, message: string,
                           kind: NotificationType, complaintId: Option<string>,
                           oldStatus: Option<string>, newStatus: Option<string>,
                           now: nat): (r: seq<Notification>)
    ensures |r| == |ns| + 1 && r[1..] == ns
    ensures !r[0].read && r[0].timestamp == now && r[0].id == NatToString(now)
    ensures r[0].title == title && r[0].message == message && r[0].kind == kind
    ensures r[0].complaintId == complaintId && r[0].oldStatus == oldStatus && r[0].newStatus == newStatus
  {
    [Notification(NatToString(now), title, message, kind, now, false, complaintId, oldStatus, newStatus)] + ns
  }

  /** A new notification adds exactly one to the unread count, and "mark
      all read" clears it with the rest. */
  lemma AddNotificationRaisesUnread(ns: seq<Notification>, title: string, message: string,
                                    kind: NotificationType, complaintId: Option<string>,
                                    oldStatus: Option<string>, newStatus: Option<string>, now: nat)
    ensures UnreadCount(AddNotification(ns, title, message, kind, complaintId, oldStatus, newStatus, now))
            == UnreadCount(ns) + 1
    ensures UnreadCount(MarkAllRead(AddNotification(ns, title, message, kind, complaintId, oldStatus, newStatus, now)))
            == 0
  {
    var r := AddNotification(ns, title, message, kind, complaintId, oldStatus, newStatus, now);
    assert r[1..] == ns;
    MarkAllReadSettles(r);
  }

  /** The complaint `updateComplaintStatus(id, …)` and `getComplaintById(id)`
      address: by internal id or by reference id. */
  predicate Matches(c: Complaint, id: string) {
    c.id == id || c.referenceId == id
  }

  function MatchesId(id: string): Complaint -> bool {
    (c: Complaint) => Matches(c, id)
  }

  /** The complaint list after `updateComplaintStatus(id, status)`. */
  function SetStatus(cs: seq<Complaint>, id: string, status: string): (r: seq<Complaint>)
    ensures |r| == |cs|
    ensures forall i :: 0 <= i < |cs| ==>
      r[i] == if Matches(cs[i], id) then cs[i].(status := status) else cs[i]
  {
    if |cs| == 0 then []
    else [if Matches(cs[0], id) then cs[0].(status := status) else cs[0]] + SetStatus(cs[1..], id, status)
  }

  /** The "Status Updated" notification for one matched complaint. */
  function StatusNotice(c: Complaint, status: string, now: nat): Notification {
    Notification(NatToString(now), "Status Updated",
      "Your complaint \"" + c.title + "\" status changed from " + c.status + " to " + status,
      StatusUpdate, now, false, Some(c.referenceId), Some(c.status), Some(status))
  }

  /** The notifications `updateComplaintStatus` prepends: one per matched
      complaint, each prepended in turn, so the last match comes first. */
  function StatusNotices(cs: seq<Complaint>, id: string, status: string, now: nat): (r: seq<Notification>)
    ensures |r| == Count(cs, MatchesId(id))
    ensures forall k :: 0 <= k < |r| ==>
      r[k].kind == StatusUpdate && !r[k].read && r[k].newStatus == Some(status)
  {
    if |cs| == 0 then []
    else
      var tail := StatusNotices(cs[1..], id, status, now);
      if Matches(cs[0], id) then tail + [StatusNotice(cs[0], status, now)] else tail
  }

  /** `updateComplaintStatus(id, status)`. */
  function UpdateComplaintStatus(st: State, id: string, status: string, now: nat): (r: State)
    ensures |r.complaints| == |st.complaints|
    ensures forall i :: 0 <= i < |st.complaints| ==>
      && r.complaints[i].(status := st.complaints[i].status) == st.complaints[i]
      && r.complaints[i].status == if Matches(st.complaints[i], id) then status else st.complaints[i].status
    ensures |r.notifications| == |st.notifications| + Count(st.complaints, MatchesId(id))
    ensures r.notifications[|r.notifications| - |st.notifications|..] == st.notifications
  {
    var added := StatusNotices(st.complaints, id, status, now);
    assert (added + st.notifications)[|added|..] == st.notifications;
    State(SetStatus(st.complaints, id, status), added + st.notifications)
  }

  /** The prepended notifications correspond one to one, in reverse order,
      to the matched complaints, and record each one's previous status. */
  lemma {:induction false} StatusNoticesReverseMatches(cs: seq<Complaint>, id: string, status: string, now: nat)
    ensures var m := Filter(cs, MatchesId(id));
            var r := StatusNotices(cs, id, status, now);
            |r| == |m| &&
            forall k :: 0 <= k < |r| ==>
              r[k] == StatusNotice(m[|m| - 1 - k], status, now) && r[k].oldStatus == Some(m[|m| - 1 - k].status)
    decreases |cs|
  {
    if |cs| > 0 {
      StatusNoticesReverseMatches(cs[1..], id, status, now);
      var m1 := Filter(cs[1..], MatchesId(id));
      var r1 := StatusNotices(cs[1..], id, status, now);
      var m := Filter(cs, MatchesId(id));
      var r := StatusNotices(cs, id, status, now);
      if Matches(cs[0], id) {
        assert m == [cs[0]] + m1;
        assert r == r1 + [StatusNotice(cs[0], status, now)];
        forall k | 0 <= k < |r|
          ensures r[k] == StatusNotice(m[|m| - 1 - k], status, now)
        {
          if k < |r1| {
            assert m[|m| - 1 - k] == m1[|m1| - 1 - k];
          }
        }
      } else {
        assert m == m1 && r == r1;
      }
    }
  }

  /** Setting the same status twice is setting it once. */
  lemma SetStatusIdempotent(cs: seq<Complaint>, id: string, status: string)
    ensures SetStatus(SetStatus(cs, id, status), id, status) == SetStatus(cs, id, status)
  {
    var once := SetStatus(cs, id, status);
    assert forall i :: 0 <= i < |cs| ==> Matches(once[i], id) == Matches(cs[i], id);
  }

  /** An id nothing answers to leaves the store as it was. */
  lemma UpdateUnknownId(st: State, id: string, status: string, now: nat)
    requires forall i :: 0 <= i < |st.complaints| ==> !Matches(st.complaints[i], id)
    ensures UpdateComplaintStatus(st, id, status, now) == st
  {
    FilterNone(st.complaints, MatchesId(id));
  }

  /** `getComplaintById`: the first complaint answering to `id`. */
  function GetComplaintById(cs: seq<Complaint>, id: string): (r: Option<Complaint>)
    ensures r.None? <==> forall i :: 0 <= i < |cs| ==> !Matches(cs[i], id)
    ensures r.Some? ==> exists i :: 0 <= i < |cs| && cs[i] == r.value && Matches(cs[i], id)
                          && forall j :: 0 <= j < i ==> !Matches(cs[j], id)
  {
    if |cs| == 0 then None
    else if Matches(cs[0], id) then Some(cs[0])
    else
      var r := GetComplaintById(cs[1..], id);
      if r.Some? then
        var i :| 0 <= i < |cs[1..]| && cs[1..][i] == r.value && Matches(cs[1..][i], id)
                  && forall j :: 0 <= j < i ==> !Matches(cs[1..][j], id);
        assert cs[i + 1] == r.value;
        r
      else r
  }

  function DepartmentIs(department: string): Complaint -> bool {
    (c: Complaint) => Lower(c.department) == Lower(department)
  }

  /** `getComplaintsByDepartment`: the complaints of one department, compared
      without regard to case, in store order. */
  function ByDepartment(cs: seq<Complaint>, department: string): (r: seq<Complaint>)
    ensures IsSubseq(r, cs)
    ensures forall i :: 0 <= i < |r| ==> Lower(r[i].department) == Lower(department)
    ensures forall c :: multiset(r)[c] == if Lower(c.department) == Lower(department) then multiset(cs)[c] else 0
  {
    Filter(cs, DepartmentIs(department))
  }

  predicate IsUrgent(c: Complaint) {
    c.urgency == "High" && c.status != "Resolved"
  }

  /** `getUrgentComplaints`: the unresolved high-urgency complaints, in
      store order. */
  function Urgent(cs: seq<Complaint>): (r: seq<Complaint>)
    ensures IsSubseq(r, cs)
    ensures forall i :: 0 <= i < |r| ==> r[i].urgency == "High" && r[i].status != "Resolved"
    ensures forall c :: multiset(r)[c] == if c.urgency == "High" && c.status != "Resolved" then multiset(cs)[c] else 0
  {
    Filter(cs, IsUrgent)
  }

  /** `markNotificationAsRead(id)`. */
  function MarkRead(ns: seq<Notification>, id: string): (r: seq<Notification>)
    ensures |r| == |ns|
    ensures forall i :: 0 <= i < |ns| ==> r[i] == if ns[i].id == id then ns[i].(read := true) else ns[i]
  {
    if |ns| == 0 then []
    else [if ns[0].id == id then ns[0].(read := true) else ns[0]] + MarkRead(ns[1..], id)
  }

  /** `markAllNotificationsAsRead`. */
  function MarkAllRead(ns: seq<Notification>): (r: seq<Notification>)
    ensures |r| == |ns|
    ensures forall i :: 0 <= i < |ns| ==> r[i] == ns[i].(read := true)
  {
    if |ns| == 0 then [] else [ns[0].(read := true)] + MarkAllRead(ns[1..])
  }

  predicate IsUnread(n: Notification) {
    !n.read
  }

  /** Nothing is unread exactly when every notification is read. */
  lemma {:induction false} NoneUnread(ns: seq<Notification>)
    ensures Count(ns, IsUnread) == 0 <==> forall i :: 0 <= i < |ns| ==> ns[i].read
    decreases |ns|
  {
    if |ns| > 0 {
      NoneUnread(ns[1..]);
      assert forall i :: 1 <= i < |ns| ==> ns[i] == ns[1..][i - 1];
    }
  }

  /** `getUnreadNotificationCount`. */
  function UnreadCount(ns: seq<Notification>): (r: nat)
    ensures r == Count(ns, IsUnread)
    ensures r == 0 <==> forall i :: 0 <= i < |ns| ==> ns[i].read
  {
    NoneUnread(ns);
    |Filter(ns, IsUnread)|
  }

  /** Marking everything read twice is marking it once, and leaves nothing
      unread. */
  lemma MarkAllReadSettles(ns: seq<Notification>)
    ensures MarkAllRead(MarkAllRead(ns)) == MarkAllRead(ns)
    ensures UnreadCount(MarkAllRead(ns)) == 0
  {
  }

  /** Marking one notification read never raises the unread count. */
  lemma {:induction false} MarkReadLowersUnread(ns: seq<Notification>, id: string)
    ensures UnreadCount(MarkRead(ns, id)) <= UnreadCount(ns)
    decreases |ns|
  {
    if |ns| > 0 {
      MarkReadLowersUnread(ns[1..], id);
      assert MarkRead(ns, id)[1..] == MarkRead(ns[1..], id);
    }
  }

  function NewerThan(cutoff: int): Notification -> bool {
    (n: Notification) => n.timestamp > cutoff
  }

  /** `clearOldNotifications`, with `cutoff` the instant one week before
      now: the notifications stamped after it, in their order. */
  function ClearOld(ns: seq<Notification>, cutoff: int): (r: seq<Notification>)
    ensures IsSubseq(r, ns)
    ensures forall i :: 0 <= i < |r| ==> r[i].timestamp > cutoff
    ensures forall n :: multiset(r)[n] == if n.timestamp > cutoff then multiset(ns)[n] else 0
  {
    Filter(ns, NewerThan(cutoff))
  }

  lemma ClearOldIdempotent(ns: seq<Notification>, cutoff: int)
    ensures ClearOld(ClearOld(ns, cutoff), cutoff) == ClearOld(ns, cutoff)
  {
    FilterIdempotent(ns, NewerThan(cutoff));
  }

  /** The identity `removeDuplicateComplaints` compares: title, email and
      at most the first 50 characters of the description. */
  function Key(c: Complaint): string {
    c.title + "-" + c.email + "-" + Substring(c.description, 0, 50)
  }

  /** What a key is made of: the title, "-", the email, "-" and then the
      description's first fifty characters, or all of it when it is shorter.
      Stated apart from `Key` so that the proofs about the clean-up see keys
      only as values. */
  lemma KeySpellsOut(c: Complaint)
    ensures IsPrefix(c.title + "-" + c.email + "-", Key(c))
    ensures |Key(c)| == |c.title| + |c.email| + 2 + (if |c.description| < 50 then |c.description| else 50)
    ensures Key(c)[|c.title| + |c.email| + 2..] == if |c.description| < 50 then c.description else c.description[..50]
  {
    SubstringPrefix(c.description, 50);
  }

  function KeysOf(cs: seq<Complaint>): set<string> {
    if |cs| == 0 then {} else {Key(cs[0])} + KeysOf(cs[1..])
  }

  predicate DistinctKeys(cs: seq<Complaint>) {
    forall i, j :: 0 <= i < j < |cs| ==> Key(cs[i]) != Key(cs[j])
  }

  /** The filter of `removeDuplicateComplaints` with the keys already
      `seen`: keeps a complaint iff its key is new, then remembers the key. */
  function DedupFrom(cs: seq<Complaint>, seen: set<string>): (r: seq<Complaint>)
    ensures IsSubseq(r, cs)
    ensures DistinctKeys(r)
    ensures forall i :: 0 <= i < |r| ==> Key(r[i]) !in seen
    ensures KeysOf(r) == KeysOf(cs) - seen
  {
    if |cs| == 0 then []
    else if Key(cs[0]) in seen then DedupFrom(cs[1..], seen)
    else [cs[0]] + DedupFrom(cs[1..], seen + {Key(cs[0])})
  }

  /** `removeDuplicateComplaints`: an order-preserving subsequence with
      pairwise distinct keys that still has every key of the input. */
  function RemoveDuplicates(cs: seq<Complaint>): (r: seq<Complaint>)
    ensures IsSubseq(r, cs)
    ensures DistinctKeys(r)
    ensures KeysOf(r) == KeysOf(cs)
  {
    DedupFrom(cs, {})
  }

  lemma {:induction false} KeysOfMember(cs: seq<Complaint>, i: nat)
    requires i < |cs|
    ensures Key(cs[i]) in KeysOf(cs)
    decreases i
  {
    if i > 0 {
      KeysOfMember(cs[1..], i - 1);
    }
  }

  /** A list whose keys are distinct and unseen passes unchanged. */
  lemma {:induction false} DedupDistinct(cs: seq<Complaint>, seen: set<string>)
    requires DistinctKeys(cs)
    requires forall i :: 0 <= i < |cs| ==> Key(cs[i]) !in seen
    ensures DedupFrom(cs, seen) == cs
    decreases |cs|
  {
    if |cs| > 0 {
      DedupDistinct(cs[1..], seen + {Key(cs[0])});
    }
  }

  lemma RemoveDuplicatesIdempotent(cs: seq<Complaint>)
    ensures RemoveDuplicates(RemoveDuplicates(cs)) == RemoveDuplicates(cs)
  {
    DedupDistinct(RemoveDuplicates(cs), {});
  }

  /** Appending a complaint keeps it iff its key is new: the first
      occurrence of every key is the one that survives. */
  lemma {:induction false} DedupSnoc(cs: seq<Complaint>, x: Complaint, seen: set<string>)
    ensures DedupFrom(cs + [x], seen) ==
      if Key(x) in seen + KeysOf(cs) then DedupFrom(cs, seen) else DedupFrom(cs, seen) + [x]
    decreases |cs|
  {
    if |cs| == 0 {
      assert cs + [x] == [x];
    } else {
      var k := Key(cs[0]);
      assert (cs + [x])[1..] == cs[1..] + [x];
      assert (cs + [x])[0] == cs[0];
      assert KeysOf(cs) == {k} + KeysOf(cs[1..]);
      if k in seen {
        DedupSnoc(cs[1..], x, seen);
        assert seen + KeysOf(cs) == seen + KeysOf(cs[1..]);
        assert DedupFrom(cs + [x], seen) == DedupFrom(cs[1..] + [x], seen);
        assert DedupFrom(cs, seen) == DedupFrom(cs[1..], seen);
      } else {
        DedupSnoc(cs[1..], x, seen + {k});
        assert seen + KeysOf(cs) == (seen + {k}) + KeysOf(cs[1..]);
        assert DedupFrom(cs + [x], seen) == [cs[0]] + DedupFrom(cs[1..] + [x], seen + {k});
        assert DedupFrom(cs, seen) == [cs[0]] + DedupFrom(cs[1..], seen + {k});
      }
    }
  }

  /** Two complaints that agree in title, email and the first 50 characters
      of the description are one for the clean-up: the later one goes,
      whatever the rest of its description says. */
  lemma DescriptionTailIgnored(c: Complaint, d: Complaint)
    requires c.title == d.title && c.email == d.email
    requires |c.description| >= 50 && |d.description| >= 50
    requires c.description[..50] == d.description[..50]
    ensures RemoveDuplicates([c, d]) == [c]
  {
    SubstringPrefix(c.description, 50);
    SubstringPrefix(d.description, 50);
    assert Key(c) == Key(d);
    assert [c, d][1..] == [d];
    assert [d][1..] == [];
    assert DedupFrom([d], {Key(c)}) == DedupFrom([], {Key(c)}) == [];
    assert DedupFrom([c, d], {}) == [c] + DedupFrom([d], {Key(c)});
  }

  lemma RemoveDuplicatesSnoc(cs: seq<Complaint>, x: Complaint)
    ensures RemoveDuplicates(cs + [x]) ==
      if Key(x) in KeysOf(cs) then RemoveDuplicates(cs) else RemoveDuplicates(cs) + [x]
  {
    DedupSnoc(cs, x, {});
  }

  datatype Stats = Stats(total: nat, resolved: nat, inProgress: nat, pending: nat)

  function StatusIs(status: string): Complaint -> bool {
    (c: Complaint) => c.status == status
  }

  /** The three status counts never exceed the number of complaints, and
      reach it when every status is one of the three. */
  lemma {:induction false} StatusCountsBound(cs: seq<Complaint>)
    ensures Count(cs, StatusIs("Resolved")) + Count(cs, StatusIs("In Progress"))
            + Count(cs, StatusIs("Pending")) <= |cs|
    ensures (forall i :: 0 <= i < |cs| ==> cs[i].status in {"Resolved", "In Progress", "Pending"}) ==>
      Count(cs, StatusIs("Resolved")) + Count(cs, StatusIs("In Progress"))
      + Count(cs, StatusIs("Pending")) == |cs|
    decreases |cs|
  {
    if |cs| > 0 {
      StatusCountsBound(cs[1..]);
    }
  }

  /** `stats`. */
  function ComputeStats(cs: seq<Complaint>): (r: Stats)
    ensures r.total == |cs|
    ensures r.resolved == Count(cs, StatusIs("Resolved"))
    ensures r.inProgress == Count(cs, StatusIs("In Progress"))
    ensures r.pending == Count(cs, StatusIs("Pending"))
    ensures r.resolved + r.inProgress + r.pending <= r.total
  {
    StatusCountsBound(cs);
    Stats(|cs|, |Filter(cs, StatusIs("Resolved"))|, |Filter(cs, StatusIs("In Progress"))|,
          |Filter(cs, StatusIs("Pending"))|)
  }
}
