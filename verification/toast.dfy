/** The toast queue of `useToast` and the per-type presentation defaults of
    `EnhancedToast` (components/enhanced-toast.tsx). A toast's id is the
    decimal clock reading at the moment it is shown, so two toasts shown in
    the same millisecond share an id. */
module Toasts {
  import opened Optional
  import opened Text
  import opened Seqs

  datatype ToastType = Success | Error | Info | Smart

  /** What a caller passes to `showToast`. */
  datatype Request = Request(message: string, kind: ToastType, emoji: Option<string>,
                             actionLabel: Option<string>, duration: Option<nat>)

  datatype Toast = Toast(id: string, request: Request)

  /** `showToast`: the new toast joins the end of the queue. */
  function ShowToast(queue: seq<Toast>, request: Request, now: nat): (r: seq<Toast>)
    ensures |r| == |queue| + 1
    ensures r[..|queue|] == queue
    ensures r[|queue|] == Toast(NatToString(now), request)
  {
    queue + [Toast(NatToString(now), request)]
  }

  function IdIsNot(id: string): Toast -> bool {
    (t: Toast) => t.id != id
  }

  /** `removeToast(id)`: every toast carrying `id` leaves, the others stay in
      their order. */
  function RemoveToast(queue: seq<Toast>, id: string): (r: seq<Toast>)
    ensures IsSubseq(r, queue)
    ensures forall i :: 0 <= i < |r| ==> r[i].id != id
    ensures forall t :: multiset(r)[t] == if t.id != id then multiset(queue)[t] else 0
  {
    Filter(queue, IdIsNot(id))
  }

  /** Closing a toast whose id nothing else in the queue carries restores
      the queue it was added to. */
  lemma RemoveUndoesShow(queue: seq<Toast>, request: Request, now: nat)
    requires forall i :: 0 <= i < |queue| ==> queue[i].id != NatToString(now)
    ensures RemoveToast(ShowToast(queue, request, now), NatToString(now)) == queue
  {
    var id := NatToString(now);
    FilterAppend(queue, [Toast(id, request)], IdIsNot(id));
    FilterAll(queue, IdIsNot(id));
    assert Filter([Toast(id, request)], IdIsNot(id)) == [];
  }

  /** Removing the same id twice is removing it once. */
  lemma RemoveToastIdempotent(queue: seq<Toast>, id: string)
    ensures RemoveToast(RemoveToast(queue, id), id) == RemoveToast(queue, id)
  {
    FilterIdempotent(queue, IdIsNot(id));
  }

  /** How long a toast stays before it starts to fade, in milliseconds. */
  const DefaultDuration: nat := 4000

  function Duration(t: Toast): (r: nat)
    ensures t.request.duration.None? ==> r == DefaultDuration
    ensures t.request.duration.Some? ==> r == t.request.duration.value
  {
    t.request.duration.GetOr(DefaultDuration)
  }

  /** The fade-out between the timer and `onClose`, in milliseconds. */
  const FadeMs: nat := 300

  /** When a toast whose component last mounted at `mountedAt` calls
      `onClose`: once its duration has passed and the fade has run. Every
      render of the page holding the toast container remounts the toasts
      and restarts their timers, so `mountedAt` is the latest such render,
      not the moment the toast was shown. */
  function ClosesAt(t: Toast, mountedAt: nat): (r: nat)
    ensures r >= mountedAt + FadeMs
    ensures t.request.duration.None? ==> r == mountedAt + 4300
  {
    mountedAt + Duration(t) + FadeMs
  }

  /** The queue at `clock` as far as the toast `t`, last mounted at
      `mountedAt` and not remounted since, is concerned: it has closed itself
      once its time is up. */
  function QueueAt(queue: seq<Toast>, t: Toast, mountedAt: nat, clock: nat): (r: seq<Toast>)
    ensures clock < ClosesAt(t, mountedAt) ==> r == queue
    ensures clock >= ClosesAt(t, mountedAt) ==> forall i :: 0 <= i < |r| ==> r[i].id != t.id
  {
    if clock >= ClosesAt(t, mountedAt) then RemoveToast(queue, t.id) else queue
  }

  /** A toast shown without a duration, under an id nothing else carries,
      leaves the queue as it found it exactly from 4.3 seconds after its last
      mount on. */
  lemma DefaultToastClosesAfterFourSeconds(queue: seq<Toast>, request: Request, now: nat,
                                           mountedAt: nat, clock: nat)
    requires request.duration.None?
    requires forall i :: 0 <= i < |queue| ==> queue[i].id != NatToString(now)
    requires now <= mountedAt
    ensures var shown := ShowToast(queue, request, now);
            QueueAt(shown, shown[|queue|], mountedAt, clock) == queue <==> clock >= mountedAt + 4300
  {
    var shown := ShowToast(queue, request, now);
    if clock >= mountedAt + 4300 {
      RemoveUndoesShow(queue, request, now);
    } else {
      assert |QueueAt(shown, shown[|queue|], mountedAt, clock)| == |queue| + 1;
    }
  }

  const SuccessText: string := "\U{2728} Yay! That worked!"
  const ErrorText: string := "\U{1F605} Oops, something went wrong"
  const InfoText: string := "\U{1F4A1} Just so you know..."
  const SmartText: string := "\U{1F916} AI says..."

  const SuccessEmoji: string := "\U{2728}"
  const ErrorEmoji: string := "\U{1F605}"
  const InfoEmoji: string := "\U{1F4A1}"
  const SmartEmoji: string := "\U{1F916}"

  function DefaultText(kind: ToastType): string {
    match kind
    case Success => SuccessText
    case Error => ErrorText
    case Info => InfoText
    case Smart => SmartText
  }

  function DefaultEmoji(kind: ToastType): string {
    match kind
    case Success => SuccessEmoji
    case Error => ErrorEmoji
    case Info => InfoEmoji
    case Smart => SmartEmoji
  }

  /** Each type's default text opens with that type's default emoji. */
  lemma DefaultTextStartsWithEmoji(kind: ToastType)
    ensures IsPrefix(DefaultEmoji(kind), DefaultText(kind))
  {
  }

  /** `message || config.message`: the caller's message unless it is empty. */
  function DisplayedText(t: Toast): (r: string)
    ensures t.request.message != "" ==> r == t.request.message
    ensures t.request.message == "" ==> r == DefaultText(t.request.kind)
    ensures r != ""
  {
    if t.request.message != "" then t.request.message else DefaultText(t.request.kind)
  }

  /** `emoji || default`: the caller's emoji unless absent or empty. */
  function DisplayedEmoji(t: Toast): (r: string)
    ensures t.request.emoji.Some? && t.request.emoji.value != "" ==> r == t.request.emoji.value
    ensures t.request.emoji.None? || t.request.emoji.value == "" ==> r == DefaultEmoji(t.request.kind)
    ensures r != ""
  {
    if t.request.emoji.Some? && t.request.emoji.value != "" then t.request.emoji.value
    else DefaultEmoji(t.request.kind)
  }
}
