/** The Leaderboard page: the server sorts, filters and paginates; the page
    keeps the day, the name filter, the sort column and order and the page
    number, and derives each request from them. */
module Leaderboard {
  import opened Common
  import opened Paging

  datatype LeaderboardEntry = LeaderboardEntry(position: string, name: string, matches: seq<int>,
                                               total: int, totalPoint: int)

  datatype Order = Asc | Desc

  /** The sort column (`sortBy`) and its direction. */
  datatype SortState = SortState(key: string, order: Order)

  /** Entries per requested page. */
  const LIMIT := 10

  /** Initially the leaderboard is sorted by total points, highest first. */
  const INITIAL_SORT := SortState("totalPoint", Desc)

  // ----- Sorting -----

  /** `handleSort(key)`: a click on the active column while it is descending
      turns it ascending; any other click sorts by that column, descending. */
  function ToggleSort(prev: SortState, key: string): (r: SortState)
    ensures r.key == key
    ensures r.order == Asc <==> prev.key == key && prev.order == Desc
  {
    SortState(key, if prev.key == key && prev.order == Desc then Asc else Desc)
  }

  /** Clicking the active column flips its order and keeps the column. */
  lemma ToggleActiveFlips(s: SortState)
    ensures ToggleSort(s, s.key).key == s.key && ToggleSort(s, s.key).order != s.order
  {
  }

  /** Clicking the same column twice from descending comes back to descending. */
  lemma ToggleTwiceRestores(key: string)
    ensures ToggleSort(ToggleSort(SortState(key, Desc), key), key) == SortState(key, Desc)
  {
  }

  /** The sort after `n` clicks on the header of column `key`. */
  function ClickHeader(s: SortState, key: string, n: nat): SortState
  {
    if n == 0 then s else ToggleSort(ClickHeader(s, key, n - 1), key)
  }

  /** Repeated clicks on a column that was not active alternate between
      descending (odd counts) and ascending (even counts). */
  lemma {:induction false} ClickHeaderAlternates(s: SortState, key: string, n: nat)
    requires s.key != key && n >= 1
    ensures ClickHeader(s, key, n) == SortState(key, if n % 2 == 1 then Desc else Asc)
  {
    if n > 1 {
      ClickHeaderAlternates(s, key, n - 1);
    }
  }

  /** The arrow drawn beside a sortable column header. */
  datatype SortIcon = Neutral | Down | Up

  /** `renderSortIcon(key)`: neutral on an inactive column, down when the
      column is active and descending, up when active and ascending. */
  function SortIconFor(sort: SortState, key: string): (r: SortIcon)
    ensures r == Neutral <==> sort.key != key
    ensures r == Down <==> sort.key == key && sort.order == Desc
    ensures r == Up <==> sort.key == key && sort.order == Asc
  {
    if sort.key != key then Neutral
    else match sort.order
      case Desc => Down
      case Asc => Up
  }

  /** After a click on `key`, its header points the other way (or down when it
      was inactive) and every other header turns neutral. */
  lemma IconAfterToggle(s: SortState, key: string, other: string)
    requires other != key
    ensures SortIconFor(ToggleSort(s, key), key) == if SortIconFor(s, key) == Down then Up else Down
    ensures SortIconFor(ToggleSort(s, key), other) == Neutral
  {
  }

  // ----- Requests -----

  /** `/api/leaderboard` for day 1, `/api/leaderboard2` for day 2. */
  function BasePath(day: Day): string
  {
    if day == 1 then "/api/leaderboard" else "/api/leaderboard2"
  }

  /** The base path, with `/search` appended exactly when the name filter is
      non-empty (it is not trimmed). */
  function Endpoint(day: Day, name: string): (r: string)
    ensures BasePath(day) <= r
    ensures r == BasePath(day) + "/search" <==> name != ""
  {
    if name != "" then BasePath(day) + "/search" else BasePath(day)
  }

  /** Reads a path back into the day and whether it is the search variant. */
  function ParseEndpoint(path: string): Option<(Day, bool)>
  {
    if path == "/api/leaderboard" then Some((1, false))
    else if path == "/api/leaderboard/search" then Some((1, true))
    else if path == "/api/leaderboard2" then Some((2, false))
    else if path == "/api/leaderboard2/search" then Some((2, true))
    else None
  }

  /** The path determines the day and whether a filter was typed. */
  lemma EndpointRoundTrip(day: Day, name: string)
    ensures ParseEndpoint(Endpoint(day, name)) == Some((day, name != ""))
  {
  }

  /** Two requests go to the same path only for the same day and the same
      emptiness of the filter; in particular the two days never share a path. */
  lemma EndpointInjective(d1: Day, n1: string, d2: Day, n2: string)
    requires Endpoint(d1, n1) == Endpoint(d2, n2)
    ensures d1 == d2 && (n1 == "" <==> n2 == "")
  {
    EndpointRoundTrip(d1, n1);
    EndpointRoundTrip(d2, n2);
  }

  function OrderParam(o: Order): string
  {
    match o
    case Asc => "asc"
    case Desc => "desc"
  }

  /** The query string: exactly these five parameters. */
  datatype Params = Params(page: int, limit: int, name: string, sortBy: string, order: string)

  datatype Request = Request(path: string, params: Params)

  /** The request `fetchData` issues for the page's current state. */
  function RequestFor(day: Day, page: int, name: string, sort: SortState): (r: Request)
    ensures r.params.limit == LIMIT && r.params.page == page && r.params.name == name
    ensures r.params.sortBy == sort.key && (r.params.order == "asc" <==> sort.order == Asc)
    ensures r.params.order == "asc" || r.params.order == "desc"
    ensures ParseEndpoint(r.path) == Some((day, name != ""))
  {
    EndpointRoundTrip(day, name);
    Request(Endpoint(day, name), Params(page, LIMIT, name, sort.key, OrderParam(sort.order)))
  }

  // ----- Rendering -----

  /** The table body: a spinner while loading, otherwise one row per entry
      (there is no separate empty-state row). */
  datatype TableBody = Spinner | Rows(entries: seq<LeaderboardEntry>)

  function Body(loading: bool, data: seq<LeaderboardEntry>): (r: TableBody)
    ensures r.Spinner? <==> loading
    ensures r.Rows? ==> r.entries == data
  {
    if loading then Spinner else Rows(data)
  }

  /** The Leaderboard page's state: one field per `useState` hook. */
  class LeaderboardController {
    var day: Day
    var data: seq<LeaderboardEntry>
    var pagination: Option<PaginationMeta>
    var loading: bool
    var page: int
    var sort: SortState
    var filterName: string

    /** Every handler keeps the page at 1 or above. */
    ghost predicate Valid()
      reads this
    {
      page >= 1
    }

    function View(): TableBody
      reads this
    {
      Body(loading, data)
    }

    constructor ()
      ensures Valid()
      ensures day == 1 && data == [] && pagination == None && !loading && page == 1
      ensures sort == INITIAL_SORT && filterName == ""
    {
      day := 1;
      data := [];
      pagination := None;
      loading := false;
      page := 1;
      sort := INITIAL_SORT;
      filterName := "";
    }

    /** A click on the header of column `key`. */
    method HandleSort(key: string)
      requires Valid()
      modifies this
      ensures Valid()
      ensures sort == ToggleSort(old(sort), key) && page == 1
      ensures day == old(day) && filterName == old(filterName)
      ensures data == old(data) && pagination == old(pagination) && loading == old(loading)
    {
      sort := ToggleSort(sort, key);
      page := 1;
    }

    /** The "Ngày 1" / "Ngày 2" buttons. */
    method ClickDay(d: Day)
      requires Valid()
      modifies this
      ensures Valid()
      ensures day == d && page == 1
      ensures sort == old(sort) && filterName == old(filterName)
      ensures data == old(data) && pagination == old(pagination) && loading == old(loading)
    {
      day := d;
      page := 1;
    }

    /** Typing in the name filter. */
    method EditFilter(text: string)
      requires Valid()
      modifies this
      ensures Valid()
      ensures filterName == text && page == 1
      ensures day == old(day) && sort == old(sort)
      ensures data == old(data) && pagination == old(pagination) && loading == old(loading)
    {
      filterName := text;
      page := 1;
    }

    /** The Prev and Next buttons (this page has no numbered buttons). */
    method Click(b: PageButton)
      requires Valid()
      requires b == Prev || b == Next
      modifies this
      ensures Valid()
      ensures day == old(day) && sort == old(sort) && filterName == old(filterName)
      ensures data == old(data) && pagination == old(pagination) && loading == old(loading)
      ensures page == if ServerControlsShown(pagination) then Press(old(page), pagination.value.totalPages, b)
                      else old(page)
      ensures ServerControlsShown(pagination) && old(1 <= page <= pagination.value.totalPages)
              ==> 1 <= page <= pagination.value.totalPages
    {
      if ServerControlsShown(pagination) {
        page := Press(page, pagination.value.totalPages, b);
      }
    }

    /** The start of `fetchData`: the spinner is shown and the request issued. */
    method BeginFetch() returns (req: Request)
      requires Valid()
      modifies this
      ensures Valid()
      ensures loading && req == RequestFor(day, page, filterName, sort)
      ensures View() == Spinner
      ensures day == old(day) && page == old(page) && sort == old(sort) && filterName == old(filterName)
      ensures data == old(data) && pagination == old(pagination)
    {
      loading := true;
      req := RequestFor(day, page, filterName, sort);
    }

    /** The end of `fetchData`: only a successful body replaces the entries and
        the pagination metadata; the spinner ends either way. */
    method CompleteFetch(response: Response<seq<LeaderboardEntry>>)
      requires Valid()
      modifies this
      ensures Valid()
      ensures !loading
      ensures Succeeded(response) ==> data == response.body.data && pagination == response.body.meta
      ensures !Succeeded(response) ==> data == old(data) && pagination == old(pagination)
      ensures Succeeded(response) ==> View() == Rows(response.body.data)
      ensures day == old(day) && page == old(page) && sort == old(sort) && filterName == old(filterName)
    {
      if Succeeded(response) {
        data := response.body.data;
        pagination := response.body.meta;
      }
      loading := false;
    }
  }

  /** The bar stays clickable while a fetch runs, and a finished fetch replaces
      the metadata without touching the page. So a Next click made while a
      filtered request is pending (old metadata: five pages) can leave the page
      at 2 once the response reports a single page: the bar disappears and the
      table is empty, with no way back but a new filter, sort or day. */
  method StuckPageAfterShrink() returns (page: int, controlsShown: bool, body: TableBody)
    ensures page == 2 && !controlsShown && body == Rows([])
  {
    var c := new LeaderboardController();
    var req := c.BeginFetch();
    c.CompleteFetch(Received(Envelope(true, [], Some(PaginationMeta(50, 1, LIMIT, 5)))));
    c.EditFilter("a");
    req := c.BeginFetch();
    c.Click(Next);
    c.CompleteFetch(Received(Envelope(true, [], Some(PaginationMeta(0, 1, LIMIT, 1)))));
    page, controlsShown, body := c.page, ServerControlsShown(c.pagination), c.View();
  }
}
