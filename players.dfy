/** The Players page: a server-paginated player directory with a name search.
    The page keeps the page number and the search text and numbers the rows
    it shows across pages. */
module Players {
  import opened Common
  import opened JsString
  import opened Paging

  datatype Player = Player(summonerName: string, rankPoints: int)

  /** Players per requested page. */
  const LIMIT := 10

  const LIST_PATH := "/api/players"
  const SEARCH_PATH := "/api/players/search"

  // ----- Requests -----

  /** `searchTerm.trim() ? "/api/players/search" : "/api/players"`. */
  function Endpoint(searchTerm: string): (r: string)
    ensures r == SEARCH_PATH || r == LIST_PATH
  {
    if Trim(searchTerm) != "" then SEARCH_PATH else LIST_PATH
  }

  /** The search variant is used exactly when the search text has a character
      other than white space. */
  lemma EndpointIff(searchTerm: string)
    ensures Endpoint(searchTerm) == SEARCH_PATH <==> !AllWhiteSpace(searchTerm)
  {
  }

  /** The query string: exactly these three parameters. */
  datatype Params = Params(page: int, limit: int, name: string)

  datatype Request = Request(path: string, params: Params)

  /** The request `fetchPlayers` issues. The path is chosen on the trimmed text
      but `name` carries the text as typed. */
  function RequestFor(page: int, searchTerm: string): (r: Request)
    ensures r.params == Params(page, LIMIT, searchTerm)
    ensures r.path == SEARCH_PATH || r.path == LIST_PATH
  {
    Request(Endpoint(searchTerm), Params(page, LIMIT, searchTerm))
  }

  /** The request goes to the search endpoint exactly when the text has a
      character other than white space, whatever the page. */
  lemma RequestForPathIff(page: int, searchTerm: string)
    ensures RequestFor(page, searchTerm).path == SEARCH_PATH <==> !AllWhiteSpace(searchTerm)
  {
    EndpointIff(searchTerm);
  }

  /** A search of white space alone lists all players, yet still sends that
      white space as `name`. */
  lemma BlankSearchListsAll(page: int, searchTerm: string)
    requires AllWhiteSpace(searchTerm)
    ensures RequestFor(page, searchTerm).path == LIST_PATH
    ensures RequestFor(page, searchTerm).params.name == searchTerm
  {
    EndpointIff(searchTerm);
  }

  // ----- Row numbering -----

  /** `(page - 1) * 10 + idx + 1`: the number shown beside row `idx` of `page`. */
  function RowNumber(page: int, idx: int): int
  {
    (page - 1) * LIMIT + idx + 1
  }

  /** A row's number gives back its page and its index on that page. */
  lemma RowNumberRoundTrip(page: int, idx: int)
    requires 1 <= page && 0 <= idx < LIMIT
    ensures RowNumber(page, idx) >= 1
    ensures (RowNumber(page, idx) - 1) / LIMIT + 1 == page
    ensures (RowNumber(page, idx) - 1) % LIMIT == idx
  {
  }

  /** No two rows of any pages share a number. */
  lemma RowNumbersDistinct(p1: int, i1: int, p2: int, i2: int)
    requires 1 <= p1 && 0 <= i1 < LIMIT && 1 <= p2 && 0 <= i2 < LIMIT
    requires RowNumber(p1, i1) == RowNumber(p2, i2)
    ensures p1 == p2 && i1 == i2
  {
    RowNumberRoundTrip(p1, i1);
    RowNumberRoundTrip(p2, i2);
  }

  /** The numbers shown beside the `count` rows of `page`: they start right after
      the previous pages' rows, are consecutive and, from page 1 on, at least 1. */
  function RowNumbers(page: int, count: nat): (r: seq<int>)
    ensures |r| == count
    ensures count > 0 ==> r[0] == (page - 1) * LIMIT + 1
    ensures forall i :: 0 <= i < count - 1 ==> r[i + 1] == r[i] + 1
    ensures forall i, j :: 0 <= i < j < count ==> r[i] < r[j]
    ensures 1 <= page ==> forall i :: 0 <= i < count ==> r[i] >= 1
  {
    seq(count, i => RowNumber(page, i))
  }

  /** When the server returns page `page` of a list in slices of ten, the number
      beside a row is that player's 1-based position in the whole list. */
  lemma RowNumberIsGlobalPosition(all: seq<Player>, page: int, idx: int)
    requires 1 <= page
    requires 0 <= idx < |Slice(all, (page - 1) * LIMIT, page * LIMIT)|
    ensures 1 <= RowNumber(page, idx) <= |all|
    ensures all[RowNumber(page, idx) - 1] == Slice(all, (page - 1) * LIMIT, page * LIMIT)[idx]
  {
  }

  // ----- Rendering -----

  /** The table body: a spinner, the numbered rows, or the "no players" row. */
  datatype TableBody = Spinner | Rows(players: seq<Player>, numbers: seq<int>) | NoPlayers

  /** Exactly one of the three bodies is chosen. */
  function Body(loading: bool, page: int, data: seq<Player>): (r: TableBody)
    ensures r.Spinner? <==> loading
    ensures r.Rows? <==> !loading && data != []
    ensures r.NoPlayers? <==> !loading && data == []
    ensures r.Rows? ==> r.players == data && r.numbers == RowNumbers(page, |data|)
  {
    if loading then Spinner
    else if |data| > 0 then Rows(data, RowNumbers(page, |data|))
    else NoPlayers
  }

  /** The Players page's state: one field per `useState` hook. */
  class PlayersController {
    var data: seq<Player>
    var pagination: Option<PaginationMeta>
    var loading: bool
    var page: int
    var searchTerm: string

    /** Every handler keeps the page at 1 or above. */
    ghost predicate Valid()
      reads this
    {
      page >= 1
    }

    function View(): TableBody
      reads this
    {
      Body(loading, page, data)
    }

    constructor ()
      ensures Valid()
      ensures data == [] && pagination == None && !loading && page == 1 && searchTerm == ""
    {
      data := [];
      pagination := None;
      loading := false;
      page := 1;
      searchTerm := "";
    }

    /** `handleSearchChange`: typing in the search box. */
    method HandleSearchChange(text: string)
      requires Valid()
      modifies this
      ensures Valid()
      ensures searchTerm == text && page == 1
      ensures data == old(data) && pagination == old(pagination) && loading == old(loading)
    {
      searchTerm := text;
      page := 1;
    }

    /** The Prev, numbered and Next buttons. */
    method Click(b: PageButton)
      requires Valid()
      modifies this
      ensures Valid()
      ensures data == old(data) && pagination == old(pagination) && loading == old(loading)
      ensures searchTerm == old(searchTerm)
      ensures page == if ServerControlsShown(pagination) then Press(old(page), pagination.value.totalPages, b)
                      else old(page)
      ensures ServerControlsShown(pagination) && old(1 <= page <= pagination.value.totalPages)
              ==> 1 <= page <= pagination.value.totalPages
    {
      if ServerControlsShown(pagination) {
        page := Press(page, pagination.value.totalPages, b);
      }
    }

    /** The start of `fetchPlayers`: the spinner is shown and the request issued. */
    method BeginFetch() returns (req: Request)
      requires Valid()
      modifies this
      ensures Valid()
      ensures loading && req == RequestFor(page, searchTerm)
      ensures View() == Spinner
      ensures data == old(data) && pagination == old(pagination)
      ensures page == old(page) && searchTerm == old(searchTerm)
    {
      loading := true;
      req := RequestFor(page, searchTerm);
    }

    /** The end of `fetchPlayers`: only a successful body replaces the players and
        the pagination metadata; the spinner ends (`finally`) either way. */
    method CompleteFetch(response: Response<seq<Player>>)
      requires Valid()
      modifies this
      ensures Valid()
      ensures !loading
      ensures Succeeded(response) ==> data == response.body.data && pagination == response.body.meta
      ensures !Succeeded(response) ==> data == old(data) && pagination == old(pagination)
      ensures Succeeded(response) && response.body.data == [] ==> View() == NoPlayers
      ensures page == old(page) && searchTerm == old(searchTerm)
    {
      if Succeeded(response) {
        data := response.body.data;
        pagination := response.body.meta;
      }
      loading := false;
    }
  }

  /** The bar stays clickable while a fetch runs, and a finished fetch replaces
      the metadata without touching the page. So a Next click made while a
      search is pending (old metadata: five pages) can leave the page at 2 once
      the response reports a single page: the bar disappears and "no players"
      is shown, with no way back but a new search. */
  method StuckPageAfterShrink() returns (page: int, controlsShown: bool, body: TableBody)
    ensures page == 2 && !controlsShown && body == NoPlayers
  {
    var c := new PlayersController();
    var req := c.BeginFetch();
    c.CompleteFetch(Received(Envelope(true, [], Some(PaginationMeta(50, 1, LIMIT, 5)))));
    c.HandleSearchChange("a");
    req := c.BeginFetch();
    c.Click(Next);
    c.CompleteFetch(Received(Envelope(true, [], Some(PaginationMeta(0, 1, LIMIT, 1)))));
    page, controlsShown, body := c.page, ServerControlsShown(c.pagination), c.View();
  }
}
