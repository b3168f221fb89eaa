/** The four-page introduction dialog (components/walkthrough-modal.tsx). */
module Walkthrough {

  /** The number of pages; the last one is page `Pages - 1`. */
  const Pages: nat := 4

  /** The page shown, counted from 0. */
  datatype Pager = Pager(page: nat)

  predicate Valid(p: Pager) {
    p.page < Pages
  }

  /** Opening the dialog goes back to the first page. */
  function Open(p: Pager): (r: Pager)
    ensures r.page == 0 && Valid(r)
  {
    Pager(0)
  }

  /** The result of "Next": the new pager and whether `onClose` was called. */
  datatype Step = Step(pager: Pager, closes: bool)

  /** "Next": forward one page, or on the last page close the dialog and
      stay on that page. */
  function Next(p: Pager): (r: Step)
    requires Valid(p)
    ensures Valid(r.pager)
    ensures r.closes <==> p.page == Pages - 1
    ensures r.closes ==> r.pager == p
    ensures !r.closes ==> r.pager.page == p.page + 1
  {
    if p.page < Pages - 1 then Step(Pager(p.page + 1), false) else Step(p, true)
  }

  /** "Back": one page back, never before the first. */
  function Prev(p: Pager): (r: Pager)
    requires Valid(p)
    ensures Valid(r)
    ensures p.page > 0 ==> r.page == p.page - 1
    ensures p.page == 0 ==> r == p
  {
    if p.page > 0 then Pager(p.page - 1) else p
  }

  /** "Back" undoes a "Next" that did not close, and "Next" undoes a "Back"
      that moved. */
  lemma NextPrevInverse(p: Pager)
    requires Valid(p)
    ensures p.page < Pages - 1 ==> Prev(Next(p).pager) == p
    ensures p.page > 0 ==> Next(Prev(p)) == Step(p, false)
  {
  }

  /** From the first page, the fourth "Next" is the one that closes. */
  lemma FourthNextCloses()
    ensures var s1 := Next(Open(Pager(0)));
            var s2 := Next(s1.pager);
            var s3 := Next(s2.pager);
            var s4 := Next(s3.pager);
            !s1.closes && !s2.closes && !s3.closes && s4.closes
  {
  }

  /** A button press on the open dialog. */
  datatype Press = PressNext | PressBack

  /** Runs a sequence of presses, stopping at the press that closes. Returns
      the final pager and whether the dialog was closed. */
  function Run(p: Pager, presses: seq<Press>): (r: Step)
    requires Valid(p)
    ensures Valid(r.pager)
    decreases |presses|
  {
    if |presses| == 0 then Step(p, false)
    else if presses[0] == PressBack then Run(Prev(p), presses[1..])
    else
      var s := Next(p);
      if s.closes then s else Run(s.pager, presses[1..])
  }

  /** The dialog closes within a run only through "Next" on the last page:
      a run of "Back" presses never closes it. */
  lemma {:induction false} BackNeverCloses(p: Pager, n: nat)
    requires Valid(p)
    ensures !Run(p, seq(n, _ => PressBack)).closes
    decreases n
  {
    if n > 0 {
      assert seq(n, _ => PressBack)[1..] == seq(n - 1, _ => PressBack);
      BackNeverCloses(Prev(p), n - 1);
    }
  }

  /** What the footer shows on a page. */
  datatype Footer = Footer(backButton: bool, startLabel: bool)

  function FooterFor(p: Pager): (r: Footer)
    requires Valid(p)
    ensures r.backButton <==> p.page > 0
    ensures r.startLabel <==> p.page == Pages - 1
    ensures r.startLabel <==> Next(p).closes
  {
    Footer(p.page > 0, p.page == Pages - 1)
  }
}
