/** The pagination bar the three pages render: a Prev button, optionally one
    numbered button per page, and a Next button. Prev is disabled on page 1,
    Next on the last page; a disabled or absent button fires no click. */
module Paging {
  import opened Common

  datatype PageButton = Prev | Next | Number(index: int)

  /** The button can be clicked: Prev unless on page 1, Next unless on the last
      page, numbered button `i` (labelled i + 1) for each i in [0, totalPages). */
  predicate Enabled(page: int, totalPages: int, b: PageButton)
  {
    match b
    case Prev => page != 1
    case Next => page != totalPages
    case Number(i) => 0 <= i < totalPages
  }

  /** Where the server paginates (Leaderboard, Players) the bar is rendered
      when metadata has arrived and reports more than one page. */
  predicate ServerControlsShown(pagination: Option<PaginationMeta>)
  {
    pagination.Some? && pagination.value.totalPages > 1
  }

  /** The page after a click on `b`; a click on a disabled button changes nothing. */
  function Press(page: int, totalPages: int, b: PageButton): (r: int)
    ensures !Enabled(page, totalPages, b) ==> r == page
    ensures 1 <= page <= totalPages ==> 1 <= r <= totalPages
    ensures 1 <= page ==> 1 <= r
    ensures b.Number? && Enabled(page, totalPages, b) ==> r == b.index + 1
    ensures b == Prev && Enabled(page, totalPages, b) ==> r == page - 1
    ensures b == Next && Enabled(page, totalPages, b) ==> r == page + 1
  {
    if !Enabled(page, totalPages, b) then page
    else match b
      case Prev => page - 1
      case Next => page + 1
      case Number(i) => i + 1
  }

  /** The page after a sequence of clicks. */
  function Navigate(page: int, totalPages: int, clicks: seq<PageButton>): int
    decreases |clicks|
  {
    if clicks == [] then page else Navigate(Press(page, totalPages, clicks[0]), totalPages, clicks[1..])
  }

  /** No sequence of clicks leaves [1, totalPages] once inside it. */
  lemma {:induction false} NavigateStaysInRange(page: int, totalPages: int, clicks: seq<PageButton>)
    requires 1 <= page <= totalPages
    ensures 1 <= Navigate(page, totalPages, clicks) <= totalPages
    decreases |clicks|
  {
    if clicks != [] {
      NavigateStaysInRange(Press(page, totalPages, clicks[0]), totalPages, clicks[1..]);
    }
  }

  /** `k` clicks on Next. */
  function Nexts(k: nat): (r: seq<PageButton>)
    ensures |r| == k && forall i :: 0 <= i < k ==> r[i] == Next
  {
    seq(k, _ => Next)
  }

  /** Prev and Next alone reach every page: from page `p`, `k` clicks on Next
      land on page `p + k` as long as that is still a page. */
  lemma {:induction false} NextsAdvance(page: int, totalPages: int, k: nat)
    requires 1 <= page && page + k <= totalPages
    ensures Navigate(page, totalPages, Nexts(k)) == page + k
    decreases k
  {
    if k > 0 {
      assert Nexts(k)[1..] == Nexts(k - 1);
      NextsAdvance(page + 1, totalPages, k - 1);
    }
  }

  /** Every page in [1, totalPages] is reachable from page 1 by Next clicks. */
  lemma EveryPageReachable(totalPages: int, target: int)
    requires 1 <= target <= totalPages
    ensures Navigate(1, totalPages, Nexts(target - 1)) == target
  {
    NextsAdvance(1, totalPages, target - 1);
  }
}
