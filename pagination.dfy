/** Page arithmetic shared by both post listings: the number of pages for a
    reported total, and the guarded one-page steps of the Next and Previous
    buttons. */
module Pagination {

  /** Number of pages of `size` posts needed for `total` posts: the integer
      ceiling of total / size. */
  function PageCount(total: nat, size: nat): (pages: nat)
    requires size > 0
    ensures total <= size * pages
    ensures size * pages < total + size
    ensures pages == 0 <==> total == 0
  {
    var a := total + size - 1;
    assert a == size * (a / size) + a % size;
    a / size
  }

  /** A positive total needs at least one page, and the last page is not empty. */
  lemma PageCountBounds(total: nat, size: nat)
    requires size > 0 && total >= 1
    ensures PageCount(total, size) >= 1
    ensures size * (PageCount(total, size) - 1) < total <= size * PageCount(total, size)
  {
    var pages := PageCount(total, size);
    assert size * (pages - 1) == size * pages - size;
  }

  /** The page shown after pressing Next: one page further when a later page
      exists, the same page otherwise. */
  function NextPage(current: int, total: int): (next: int)
    ensures current <= next <= current + 1
    ensures next == current + 1 <==> current < total
    ensures 1 <= current <= total ==> 1 <= next <= total
  {
    if current < total then current + 1 else current
  }

  /** The page shown after pressing Previous: one page back unless the first
      page is shown. */
  function PreviousPage(current: int): (previous: int)
    ensures current - 1 <= previous <= current
    ensures previous == current - 1 <==> current > 1
    ensures 1 <= current ==> 1 <= previous
  {
    if current > 1 then current - 1 else current
  }

  /** Previous undoes a Next that moved, and Next undoes a Previous that moved. */
  lemma NextPreviousInverse(current: int, total: int)
    ensures current < total && 1 <= current ==> PreviousPage(NextPage(current, total)) == current
    ensures 1 < current <= total ==> NextPage(PreviousPage(current), total) == current
  {
  }

  /** A press of one of the two pagination buttons. */
  datatype Nav = Next | Previous

  function Step(current: int, total: int, nav: Nav): int
  {
    match nav
    case Next => NextPage(current, total)
    case Previous => PreviousPage(current)
  }

  /** The page shown after a sequence of button presses, the total page count
      staying fixed. */
  function Run(current: int, total: int, navs: seq<Nav>): int
    decreases |navs|
  {
    if navs == [] then current else Run(Step(current, total, navs[0]), total, navs[1..])
  }

  /** Any sequence of presses keeps the page at least 1, and never takes it past
      the last page (nor past the page it started on, if that was already
      beyond the last page). */
  lemma {:induction false} RunStaysInRange(current: int, total: int, navs: seq<Nav>)
    requires 1 <= current
    ensures 1 <= Run(current, total, navs)
    ensures Run(current, total, navs) <= if current <= total then total else current
    decreases |navs|
  {
    if navs != [] {
      var next := Step(current, total, navs[0]);
      RunStaysInRange(next, total, navs[1..]);
    }
  }

  /** Starting inside [1, total], any sequence of presses stays inside it. */
  lemma RunKeepsPageValid(current: int, total: int, navs: seq<Nav>)
    requires 1 <= current <= total
    ensures 1 <= Run(current, total, navs) <= total
  {
    RunStaysInRange(current, total, navs);
  }
}
