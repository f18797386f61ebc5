/** The page arithmetic the admin device pages share: the page count, the window of
    at most five numbered buttons, and the Previous and Next buttons. */
module Paging {
  import opened Common

  /** `Math.ceil(count / perPage)`. */
  function TotalPages(count: nat, perPage: nat): (r: nat)
    requires perPage > 0
    ensures r * perPage >= count
    ensures r > 0 ==> (r - 1) * perPage < count
    ensures r == 0 <==> count == 0
  {
    (count + perPage - 1) / perPage
  }

  /** The number written on the `i`-th window button. */
  function PageNumber(i: nat, currentPage: int, totalPages: nat): int
  {
    if totalPages <= 5 then i + 1
    else if currentPage <= 3 then i + 1
    else if currentPage >= totalPages - 2 then totalPages - 4 + i
    else currentPage - 2 + i
  }

  function WindowSize(totalPages: nat): nat
  {
    if totalPages < 5 then totalPages else 5
  }

  /** The numbered buttons: `Math.min(5, totalPages)` consecutive pages, all real
      pages, and including the current one whenever that is a real page. */
  function PageWindow(currentPage: int, totalPages: nat): (r: seq<int>)
    ensures |r| == WindowSize(totalPages)
    ensures forall i :: 0 <= i < |r| ==> 1 <= r[i] <= totalPages
    ensures forall i :: 0 < i < |r| ==> r[i] == r[i - 1] + 1
    ensures 1 <= currentPage <= totalPages ==> currentPage in r
  {
    var r := seq(WindowSize(totalPages), i requires 0 <= i => PageNumber(i, currentPage, totalPages));
    assert 1 <= currentPage <= totalPages ==>
      r[currentPage - PageNumber(0, currentPage, totalPages)] == currentPage;
    r
  }

  /** Away from both ends of a long list, the current page sits in the middle. */
  lemma WindowCentred(currentPage: int, totalPages: nat)
    requires totalPages > 5 && 3 < currentPage < totalPages - 2
    ensures PageWindow(currentPage, totalPages)[2] == currentPage
  {
  }

  /** The "..." and the button for the last page that follow the window. */
  predicate ShowsLastJump(currentPage: int, totalPages: nat)
  {
    totalPages > 5 && currentPage < totalPages - 2
  }

  /** The last page always has exactly one button: in the window, or as the jump
      after it. */
  lemma {:induction false} LastPageOnce(currentPage: int, totalPages: nat)
    requires totalPages > 0
    ensures var w := PageWindow(currentPage, totalPages);
      (totalPages in w) != ShowsLastJump(currentPage, totalPages)
  {
    var w := PageWindow(currentPage, totalPages);
    var n := |w|;
    assert w[n - 1] == PageNumber(n - 1, currentPage, totalPages);
    if ShowsLastJump(currentPage, totalPages) {
      forall k | 0 <= k < n
        ensures w[k] < totalPages
      {
        assert w[k] == PageNumber(k, currentPage, totalPages);
      }
    } else {
      assert w[n - 1] == totalPages;
    }
  }

  /** Previous: `Math.max(page - 1, 1)`. */
  function PrevPage(page: int): (r: int)
    ensures r >= 1
    ensures page > 1 ==> r == page - 1
    ensures page <= 1 ==> r == 1
  {
    if page - 1 > 1 then page - 1 else 1
  }

  /** Next: `Math.min(page + 1, totalPages)`. */
  function NextPage(page: int, totalPages: nat): (r: int)
    ensures r <= totalPages
    ensures page < totalPages ==> r == page + 1
    ensures page >= totalPages ==> r == totalPages
  {
    if page + 1 < totalPages then page + 1 else totalPages
  }

  /** The buttons keep a real page real, and undo each other away from the ends. */
  lemma PrevNextClamp(page: int, totalPages: nat)
    requires 1 <= page <= totalPages
    ensures 1 <= PrevPage(page) <= totalPages && 1 <= NextPage(page, totalPages) <= totalPages
    ensures page > 1 ==> NextPage(PrevPage(page), totalPages) == page
    ensures page < totalPages ==> PrevPage(NextPage(page, totalPages)) == page
  {
  }
}
