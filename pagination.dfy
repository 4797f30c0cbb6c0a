/**
 * The page control under the product grid (src/components/Pagination.tsx):
 * when it shows, the previous and next buttons with their clamping and
 * disabled rules, and the jump to the last page.
 */
module Pagination {
  import Dashboard

  /** The control renders nothing for one page or none. */
  predicate Visible(totalPages: int) {
    totalPages > 1
  }

  /** "◀": `Math.max(1, p - 1)`. */
  function Prev(page: int): (r: int)
    ensures r >= 1
    ensures r <= page || page < 1
  {
    Dashboard.Max(1, page - 1)
  }

  /** "▶": `Math.min(totalPages, p + 1)`. */
  function Next(page: int, totalPages: int): (r: int)
    ensures r <= totalPages
    ensures r >= page || page > totalPages
  {
    Dashboard.Min(totalPages, page + 1)
  }

  /** "◀" is disabled on page 1, the one page from which it would not move. */
  predicate PrevDisabled(page: int)
    ensures PrevDisabled(page) ==> Prev(page) == page
    ensures page >= 1 && Prev(page) == page ==> PrevDisabled(page)
  {
    page == 1
  }

  /** "▶" is disabled on the last page, the one page that exists from which it would not move. */
  predicate NextDisabled(page: int, totalPages: int)
    ensures NextDisabled(page, totalPages) ==> Next(page, totalPages) == page
    ensures page <= totalPages && Next(page, totalPages) == page ==> NextDisabled(page, totalPages)
  {
    page == totalPages
  }

  /** `pageNumbers[pageNumbers.length - 1] < totalPages`; an empty window has no last entry and shows nothing. */
  predicate ShowJumpToLast(pageNumbers: seq<int>, totalPages: int) {
    |pageNumbers| > 0 && pageNumbers[|pageNumbers| - 1] < totalPages
  }

  /** A button is disabled exactly when clicking it would leave the page where it is. */
  lemma DisabledIffNoMove(page: int, totalPages: int)
    ensures PrevDisabled(page) <==> Prev(page) == page
    ensures NextDisabled(page, totalPages) <==> Next(page, totalPages) == page
  {
  }

  /** From a page that exists, both buttons lead to a page that exists. */
  lemma StepsStayInRange(page: int, totalPages: int)
    requires 1 <= page <= totalPages
    ensures 1 <= Prev(page) <= totalPages
    ensures 1 <= Next(page, totalPages) <= totalPages
  {
  }

  /** "▶" undoes "◀" and "◀" undoes "▶", away from the ends. */
  lemma PrevNextInverse(page: int, totalPages: int)
    ensures 1 < page <= totalPages ==> Next(Prev(page), totalPages) == page
    ensures 1 <= page < totalPages ==> Prev(Next(page, totalPages)) == page
  {
  }

  /**
   * With the window the catalog page computes, the jump to the last page shows
   * exactly when the window's first button plus four falls short of the last
   * page, i.e. when the window does not already reach it.
   */
  lemma JumpShownIffWindowStopsShort(page: int, totalPages: nat)
    ensures ShowJumpToLast(Dashboard.PageWindow(page, totalPages), totalPages)
            <==> Dashboard.Max(1, page - 2) + Dashboard.MaxButtons - 1 < totalPages
  {
    var w := Dashboard.PageWindow(page, totalPages);
    var (lo, hi) := Dashboard.WindowBounds(page, totalPages);
    if lo <= hi {
      assert w[|w| - 1] == hi;
    }
  }

  /** From a page in the middle of many, the jump is offered; on a short catalogue it never is. */
  lemma JumpExamples(page: int, totalPages: nat)
    ensures totalPages <= Dashboard.MaxButtons ==> !ShowJumpToLast(Dashboard.PageWindow(page, totalPages), totalPages)
    ensures 1 <= page && page + 2 < totalPages && Dashboard.MaxButtons < totalPages
            ==> ShowJumpToLast(Dashboard.PageWindow(page, totalPages), totalPages)
  {
    JumpShownIffWindowStopsShort(page, totalPages);
  }

  /** What a click on the control does; a disabled or hidden button does nothing. */
  datatype Click = PrevClick | NextClick | JumpToLastClick

  /** While the control is hidden no button is there to click, so nothing moves. */
  function Step(page: int, totalPages: nat, click: Click): (r: int)
    ensures !Visible(totalPages) ==> r == page
    ensures 1 <= page <= totalPages ==> 1 <= r <= totalPages
    ensures click == PrevClick && Visible(totalPages) && page > 1 ==> r == page - 1
    ensures click == NextClick && Visible(totalPages) && page < totalPages ==> r == page + 1
    ensures (click == JumpToLastClick && Visible(totalPages)
             && ShowJumpToLast(Dashboard.PageWindow(page, totalPages), totalPages)) ==> r == totalPages
    ensures (click == JumpToLastClick
             && !ShowJumpToLast(Dashboard.PageWindow(page, totalPages), totalPages)) ==> r == page
  {
    if !Visible(totalPages) then page
    else match click
    case PrevClick => if PrevDisabled(page) then page else Prev(page)
    case NextClick => if NextDisabled(page, totalPages) then page else Next(page, totalPages)
    case JumpToLastClick =>
      if ShowJumpToLast(Dashboard.PageWindow(page, totalPages), totalPages) then totalPages else page
  }

  function Run(page: int, totalPages: nat, clicks: seq<Click>): int
    decreases |clicks|
  {
    if clicks == [] then page else Run(Step(page, totalPages, clicks[0]), totalPages, clicks[1..])
  }

  /** However the control is clicked, a page that exists stays a page that exists. */
  lemma {:induction false} ClicksStayInRange(page: int, totalPages: nat, clicks: seq<Click>)
    requires 1 <= page <= totalPages
    ensures 1 <= Run(page, totalPages, clicks) <= totalPages
    decreases |clicks|
  {
    if clicks != [] {
      ClicksStayInRange(Step(page, totalPages, clicks[0]), totalPages, clicks[1..]);
    }
  }

  /** With one page or none the control is not rendered, and no sequence of clicks changes the page. */
  lemma {:induction false} HiddenControlKeepsPage(page: int, totalPages: nat, clicks: seq<Click>)
    requires !Visible(totalPages)
    ensures Run(page, totalPages, clicks) == page
    decreases |clicks|
  {
    if clicks != [] {
      HiddenControlKeepsPage(Step(page, totalPages, clicks[0]), totalPages, clicks[1..]);
    }
  }
}
