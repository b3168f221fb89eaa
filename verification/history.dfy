/** The "Recent Complaints" card (components/complaint-history.tsx) and the
    history record it shows, which the complaint form writes to storage. */
module ComplaintHistory {
  import opened Text
  import opened Seqs
  import opened Optional

  /** One stored history entry; `date` is already rendered as text. */
  datatype HistoryItem = HistoryItem(
    id: string,
    summary: string,
    location: string,
    department: string,
    status: string,
    date: string,
    referenceId: string)

  /** What the `complaintHistory` storage key yields when read and parsed:
      no entry (or an empty one), text that is not a JSON array (`isJson`
      tells whether it is JSON at all), or the entries. */
  datatype StoredHistory = Absent | Malformed(message: string, isJson: bool) | Items(items: seq<HistoryItem>)

  /** The stored entries, for a reader that has already dealt with
      malformed text: nothing stored reads as no entries. */
  function StoredItems(stored: StoredHistory): (r: seq<HistoryItem>)
    requires !stored.Malformed?
    ensures stored.Items? ==> r == stored.items
    ensures stored.Absent? ==> r == []
  {
    if stored.Items? then stored.items else []
  }

  /** The `history` state after the card's mount effect. Text that does not
      parse is logged and leaves the empty list; JSON that is not an array
      is stored as it is, so the state holds no list (`None`). */
  function LoadHistory(stored: StoredHistory): (r: Option<seq<HistoryItem>>)
    ensures r.None? <==> stored.Malformed? && stored.isJson
    ensures stored.Items? ==> r == Some(stored.items)
    ensures stored.Absent? || (stored.Malformed? && !stored.isJson) ==> r == Some([])
  {
    match stored
    case Items(items) => Some(items)
    case Absent => Some([])
    case Malformed(_, isJson) => if isJson then None else Some([])
  }

  /** At most this many entries are shown. */
  const VisibleItems: nat := 3

  /** What the card renders: nothing for an empty history, otherwise the
      first three entries and, when there are more, a link to the full
      list. */
  datatype Card = Hidden | Shown(items: seq<HistoryItem>, viewAllLink: bool)

  function Render(history: seq<HistoryItem>): (r: Card)
    ensures r.Hidden? <==> |history| == 0
    ensures r.Shown? ==> |r.items| == if |history| < 3 then |history| else 3
    ensures r.Shown? ==> forall i :: 0 <= i < |r.items| ==> r.items[i] == history[i]
    ensures r.Shown? ==> (r.viewAllLink <==> |history| > 3)
  {
    if |history| == 0 then Hidden else Shown(Take(history, VisibleItems), |history| > VisibleItems)
  }

  /** `location.substring(0, 30) + "..."`: the ellipsis is appended even to
      short locations. */
  function LocationLabel(location: string): (r: string)
    ensures |r| == (if |location| < 30 then |location| else 30) + 3
    ensures IsPrefix(r[..|r| - 3], location) && r[|r| - 3..] == "..."
  {
    Substring(location, 0, 30) + "..."
  }

  /** The badge colour of a history status. */
  function StatusColor(status: string): (r: string)
    ensures status == "Resolved" ==> r == "bg-green-100 text-green-800 border-green-200"
    ensures status == "Processing" ==> r == "bg-blue-100 text-blue-800 border-blue-200"
    ensures status == "Sent" ==> r == "bg-orange-100 text-orange-800 border-orange-200"
    ensures r == "bg-gray-100 text-gray-800 border-gray-200" <==> status !in {"Resolved", "Processing", "Sent"}
  {
    match status
    case "Resolved" => "bg-green-100 text-green-800 border-green-200"
    case "Processing" => "bg-blue-100 text-blue-800 border-blue-200"
    case "Sent" => "bg-orange-100 text-orange-800 border-orange-200"
    case _ => "bg-gray-100 text-gray-800 border-gray-200"
  }

  /** The card after mounting: `None` when rendering throws. That happens
      for stored JSON that is not an array and whose `length` is not 0, since
      it passes the emptiness test and has no `slice(0, 3).map`; a non-array
      of length 0 is not told apart here. */
  function Mount(stored: StoredHistory): (r: Option<Card>)
    ensures r.None? <==> stored.Malformed? && stored.isJson
    ensures stored.Items? ==> r == Some(Render(stored.items))
    ensures stored.Absent? || (stored.Malformed? && !stored.isJson) ==> r == Some(Hidden)
  {
    match LoadHistory(stored)
    case None => None
    case Some(history) => Some(Render(history))
  }
}
