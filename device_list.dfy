/** The server-paged device list (client/src/pages/admin/devices/DeviceList.js):
    the page count taken from the server's total, the request it sends, the
    search that returns to page one, and the pager. */
module DeviceList {
  import opened Common
  import Paging

  const ItemsPerPage := 10

  /** The page state of the list. */
  datatype ListState = ListState(currentPage: int, searchTerm: string, totalPages: nat)

  /** The query the list sends: `search` is left out when the term is empty. */
  datatype FetchParams = FetchParams(page: int, limit: nat, search: Option<string>)

  function Params(s: ListState): (p: FetchParams)
    ensures p.page == s.currentPage && p.limit == ItemsPerPage
    ensures p.search.None? <==> s.searchTerm == ""
    ensures p.search.Some? ==> p.search.value == s.searchTerm
  {
    FetchParams(s.currentPage, ItemsPerPage, if s.searchTerm == "" then None else Some(s.searchTerm))
  }

  /** The state after a response reporting `total` devices arrives. */
  function Fetched(s: ListState, total: nat): (r: ListState)
    ensures r.totalPages == Paging.TotalPages(total, ItemsPerPage)
    ensures r.currentPage == s.currentPage && r.searchTerm == s.searchTerm
  {
    s.(totalPages := Paging.TotalPages(total, ItemsPerPage))
  }

  /** `handleSearch`: back to the first page, with the term unchanged. */
  function HandleSearch(s: ListState): (r: ListState)
    ensures r.currentPage == 1
    ensures r.searchTerm == s.searchTerm && r.totalPages == s.totalPages
    ensures Params(r).page == 1 && Params(r).search == Params(s).search
  {
    s.(currentPage := 1)
  }

  /** The requests a search sends. `handleSearch` calls `fetchDevices` from the closure of
      the render it belongs to, so the first request still asks for the old page; when
      the page really changes, the effect on `currentPage` then fetches page one. */
  function SearchRequests(s: ListState): (rs: seq<FetchParams>)
    ensures |rs| >= 1 && rs[0] == Params(s)
    ensures rs[|rs| - 1] == Params(HandleSearch(s)) && rs[|rs| - 1].page == 1
    ensures |rs| == 2 <==> s.currentPage != 1
  {
    [Params(s)] + (if s.currentPage != 1 then [Params(HandleSearch(s))] else [])
  }

  /** The numbered buttons, shown when there is more than one page. */
  function Window(s: ListState): (r: seq<int>)
    ensures s.totalPages <= 1 ==> r == []
    ensures s.totalPages > 1 ==> r == Paging.PageWindow(s.currentPage, s.totalPages)
    ensures forall i :: 0 <= i < |r| ==> 1 <= r[i] <= s.totalPages
  {
    if s.totalPages > 1 then Paging.PageWindow(s.currentPage, s.totalPages) else []
  }

  /** Previous and Next, as the pager applies them. */
  function Prev(s: ListState): (r: ListState)
    ensures r.currentPage == Paging.PrevPage(s.currentPage) && r.currentPage >= 1
  {
    s.(currentPage := Paging.PrevPage(s.currentPage))
  }

  function Next(s: ListState): (r: ListState)
    ensures r.currentPage == Paging.NextPage(s.currentPage, s.totalPages) && r.currentPage <= s.totalPages
  {
    s.(currentPage := Paging.NextPage(s.currentPage, s.totalPages))
  }

  /** The pager's "of N results" is `totalPages * 10`: never less than the real total
      and larger by less than one page. */
  lemma ShownTotalRoundsUp(total: nat)
    ensures var shown := Paging.TotalPages(total, ItemsPerPage) * ItemsPerPage;
      total <= shown < total + ItemsPerPage
      && (shown == total <==> total % ItemsPerPage == 0)
  {
    var n := Paging.TotalPages(total, ItemsPerPage);
    if n > 0 {
      assert (n - 1) * ItemsPerPage < total;
    }
  }

  /** Pressing Previous and Next from any page of a list with pages keeps the page real. */
  lemma PagerStaysInRange(s: ListState)
    requires s.totalPages >= 1 && 1 <= s.currentPage <= s.totalPages
    ensures 1 <= Prev(s).currentPage <= s.totalPages
    ensures 1 <= Next(s).currentPage <= s.totalPages
    ensures 1 <= HandleSearch(s).currentPage <= s.totalPages
  {
    Paging.PrevNextClamp(s.currentPage, s.totalPages);
  }
}
