/** The notification bell and its drop-down panel
    (components/notification-system.tsx), over the store's notifications. */
module NotificationPanel {
  import opened Optional
  import opened Text
  import opened Seqs
  import opened Store

  /** The unread badge on the bell. */
  datatype Badge = NoBadge | Badge(text: string)

  /** No badge for zero, the number up to nine, "9+" beyond. */
  function BadgeFor(unread: nat): (r: Badge)
    ensures r.NoBadge? <==> unread == 0
    ensures 0 < unread <= 9 ==> r.Badge? && |r.text| == 1 && ParseInt(r.text) == Some(unread)
    ensures unread > 9 ==> r == Badge("9+")
  {
    ParseIntNatToString(unread);
    if unread == 0 then NoBadge
    else if unread > 9 then Badge("9+")
    else
      SmallNumberOneDigit(unread);
      Badge(NatToString(unread))
  }

  lemma SmallNumberOneDigit(n: nat)
    requires n < 10
    ensures |NatToString(n)| == 1
  {
  }

  /** The JavaScript `type` strings of the store's notification kinds. */
  function TypeName(kind: NotificationType): string {
    match kind
    case StatusUpdate => "status_update"
    case Assignment => "assignment"
    case Resolution => "resolution"
    case General => "general"
  }

  const ResolvedIcon: string := "\U{2705}"
  const UrgentIcon: string := "\U{1F6A8}"
  const AdminResponseIcon: string := "\U{1F4AC}"
  const DefaultIcon: string := "\U{1F4CB}"

  /** `getNotificationIcon`. */
  function IconFor(typeName: string): (r: string)
    ensures r == DefaultIcon <==> typeName !in {"resolved", "urgent", "admin_response"}
  {
    match typeName
    case "resolved" => ResolvedIcon
    case "urgent" => UrgentIcon
    case "admin_response" => AdminResponseIcon
    case _ => DefaultIcon
  }

  /** None of the names the lookup knows is a type the store produces, so
      every stored notification gets the default icon. */
  lemma DeclaredTypesGetDefaultIcon(kind: NotificationType)
    ensures IconFor(TypeName(kind)) == DefaultIcon
  {
  }

  /** At most this many notifications are listed. */
  const PanelSize: nat := 10

  /** The open panel. */
  datatype Panel = Panel(
    emptyMessage: bool,
    listed: seq<Notification>,
    footer: Option<nat>,
    markAllButton: bool)

  function OpenPanel(ns: seq<Notification>): (r: Panel)
    ensures r.emptyMessage <==> |ns| == 0
    ensures |r.listed| == if |ns| < PanelSize then |ns| else PanelSize
    ensures r.listed == ns[..|r.listed|]
    ensures r.footer.Some? <==> |ns| > PanelSize
    ensures r.footer.Some? ==> r.footer.value == |ns|
    ensures r.markAllButton <==> exists i :: 0 <= i < |ns| && !ns[i].read
  {
    var listed := Take(ns, PanelSize);
    assert listed == ns[..|listed|];
    Panel(|ns| == 0, listed, if |ns| > PanelSize then Some(|ns|) else None, UnreadCount(ns) > 0)
  }

  /** The "old → new" badge of a row, shown when both statuses are
      non-empty. */
  function StatusChange(n: Notification): (r: Option<(string, string)>)
    ensures r.Some? <==>
      n.oldStatus.Some? && n.oldStatus.value != "" && n.newStatus.Some? && n.newStatus.value != ""
    ensures r.Some? ==> r.value == (n.oldStatus.value, n.newStatus.value)
  {
    if n.oldStatus.Some? && n.oldStatus.value != "" && n.newStatus.Some? && n.newStatus.value != "" then
      Some((n.oldStatus.value, n.newStatus.value))
    else None
  }

  /** Every status notification of the store shows its change badge when
      the old status was not empty. */
  lemma StatusNoticeShowsChange(c: Complaint, status: string, now: nat)
    requires c.status != "" && status != ""
    ensures StatusChange(StatusNotice(c, status, now)) == Some((c.status, status))
  {
  }

  /** "Mark all read" leaves neither a badge nor the button. */
  lemma MarkAllClearsBadge(ns: seq<Notification>)
    ensures BadgeFor(UnreadCount(MarkAllRead(ns))) == NoBadge
    ensures !OpenPanel(MarkAllRead(ns)).markAllButton
  {
    MarkAllReadSettles(ns);
  }

  /** The component's own state: whether the panel is open and whether the
      one-time cleanup has run. */
  datatype Bell = Bell(isOpen: bool, cleaned: bool)

  /** The mount effect: the first run drops the notifications from before
      `cutoff` and sets the flag; later runs change nothing. */
  function CleanupEffect(b: Bell, ns: seq<Notification>, cutoff: int): (r: (Bell, seq<Notification>))
    ensures r.0.cleaned && r.0.isOpen == b.isOpen
    ensures !b.cleaned ==> r.1 == ClearOld(ns, cutoff)
    ensures b.cleaned ==> r.1 == ns
  {
    if !b.cleaned then (b.(cleaned := true), ClearOld(ns, cutoff)) else (b, ns)
  }

  /** The effect runs its cleanup once however often it fires, even with a
      later cutoff. */
  lemma CleanupRunsOnce(b: Bell, ns: seq<Notification>, cutoff: int, later: int)
    ensures var first := CleanupEffect(b, ns, cutoff);
            CleanupEffect(first.0, first.1, later) == first
  {
  }

  /** The bell button: opens a closed panel and closes an open one. */
  function Toggle(b: Bell): (r: Bell)
    ensures r.isOpen == !b.isOpen && r.cleaned == b.cleaned
  {
    b.(isOpen := !b.isOpen)
  }

  /** Pressing the bell twice restores the panel, and opening or closing it
      has no bearing on the one-time cleanup. */
  lemma ToggleIndependentOfCleanup(b: Bell, ns: seq<Notification>, cutoff: int)
    ensures Toggle(Toggle(b)) == b
    ensures CleanupEffect(Toggle(b), ns, cutoff).1 == CleanupEffect(b, ns, cutoff).1
    ensures CleanupEffect(Toggle(b), ns, cutoff).0 == Toggle(CleanupEffect(b, ns, cutoff).0)
  {
  }
}
