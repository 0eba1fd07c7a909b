/** The Lobbies page: one GET fetches a whole day's rounds; the page then picks
    the selected round, filters its lobbies by name and cuts out one page of
    six, all on the client. */
module Lobbies {
  import opened Common
  import opened JsString
  import opened Paging

  datatype LobbyMember = LobbyMember(name: string)
  datatype Lobby = Lobby(lobbyName: string, members: seq<LobbyMember>)
  datatype Round = Round(roundNumber: int, lobbies: seq<Lobby>)
  datatype DayData = DayData(day: int, rounds: seq<Round>)

  const ITEMS_PER_PAGE := 6

  /** `/api/lobbies/${day}`: a fixed prefix followed by the day's digit. */
  function LobbiesPath(day: Day): (r: string)
    ensures |r| == 14 && r[..13] == "/api/lobbies/"
    ensures r[13] as int - '0' as int == day
  {
    "/api/lobbies/" + (if day == 1 then "1" else "2")
  }

  // ----- Round lookup -----

  /** `rounds.find(r => r.roundNumber === n)`, as the index of the round found. */
  function FindRound(rounds: seq<Round>, n: int): (r: Option<nat>)
    ensures r.Some? ==> r.value < |rounds| && rounds[r.value].roundNumber == n
                        && forall j :: 0 <= j < r.value ==> rounds[j].roundNumber != n
    ensures r.None? ==> forall j :: 0 <= j < |rounds| ==> rounds[j].roundNumber != n
    decreases |rounds|
  {
    if rounds == [] then None
    else if rounds[0].roundNumber == n then Some(0)
    else match FindRound(rounds[1..], n)
      case None => None
      case Some(i) => Some(i + 1)
  }

  /** The selected round's lobbies: those of the first round numbered
      `selectedRound`, or none when nothing is loaded or no round has that number. */
  function RoundLobbies(dayData: Option<DayData>, selectedRound: int): (r: seq<Lobby>)
    ensures dayData.None? ==> r == []
    ensures dayData.Some? ==>
      forall i :: 0 <= i < |dayData.value.rounds| && dayData.value.rounds[i].roundNumber == selectedRound
                  && (forall j :: 0 <= j < i ==> dayData.value.rounds[j].roundNumber != selectedRound)
                  ==> r == dayData.value.rounds[i].lobbies
    ensures dayData.Some? && (forall j :: 0 <= j < |dayData.value.rounds| ==> dayData.value.rounds[j].roundNumber != selectedRound)
            ==> r == []
  {
    match dayData
    case None => []
    case Some(d) =>
      match FindRound(d.rounds, selectedRound)
      case None => []
      case Some(i) => d.rounds[i].lobbies
  }

  // ----- Name filter -----

  /** `a` is `b` with some elements left out, order kept. */
  predicate IsSubsequence<T(==)>(a: seq<T>, b: seq<T>)
    decreases |b|
  {
    if a == [] then true
    else if b == [] then false
    else (a[0] == b[0] && IsSubsequence(a[1..], b[1..])) || IsSubsequence(a, b[1..])
  }

  /** The lobby's lower-cased name contains the lower-cased search text. */
  predicate NameMatches(l: Lobby, search: string)
  {
    Includes(ToLowerCase(l.lobbyName), ToLowerCase(search))
  }

  /** `lobbies.filter(l => NameMatches(l, search))`: an order-preserving
      subsequence of the round's lobbies, all of which match. */
  function FilterByName(lobbies: seq<Lobby>, search: string): (r: seq<Lobby>)
    ensures IsSubsequence(r, lobbies)
    ensures forall i :: 0 <= i < |r| ==> NameMatches(r[i], search)
    decreases |lobbies|
  {
    if lobbies == [] then []
    else if NameMatches(lobbies[0], search) then [lobbies[0]] + FilterByName(lobbies[1..], search)
    else FilterByName(lobbies[1..], search)
  }

  /** The filter keeps every matching lobby as often as it occurs, and no other. */
  lemma {:induction false} FilterMultiplicity(lobbies: seq<Lobby>, search: string, x: Lobby)
    ensures multiset(FilterByName(lobbies, search))[x]
            == if NameMatches(x, search) then multiset(lobbies)[x] else 0
    decreases |lobbies|
  {
    if lobbies != [] {
      FilterMultiplicity(lobbies[1..], search, x);
      assert lobbies == [lobbies[0]] + lobbies[1..];
    }
  }

  /** A lobby is shown after filtering iff it is in the round and its name matches. */
  lemma FilterMembership(lobbies: seq<Lobby>, search: string, x: Lobby)
    ensures x in FilterByName(lobbies, search) <==> x in lobbies && NameMatches(x, search)
  {
    FilterMultiplicity(lobbies, search, x);
  }

  /** An empty search keeps every lobby. */
  lemma {:induction false} FilterEmptySearchKeepsAll(lobbies: seq<Lobby>)
    ensures FilterByName(lobbies, "") == lobbies
    decreases |lobbies|
  {
    if lobbies != [] {
      IncludesEmpty(ToLowerCase(lobbies[0].lobbyName));
      assert ToLowerCase("") == "";
      FilterEmptySearchKeepsAll(lobbies[1..]);
    }
  }

  /** The search is case-insensitive: typing it in lower case filters the same. */
  lemma {:induction false} FilterIgnoresSearchCase(lobbies: seq<Lobby>, search: string)
    ensures FilterByName(lobbies, ToLowerCase(search)) == FilterByName(lobbies, search)
    decreases |lobbies|
  {
    if lobbies != [] {
      ToLowerCaseIdempotent(search);
      FilterIgnoresSearchCase(lobbies[1..], search);
    }
  }

  // ----- Client-side pagination -----

  /** `Math.ceil(n / itemsPerPage)`: the fewest pages of six that hold `n` lobbies. */
  function TotalPages(n: nat): (r: nat)
    ensures n <= r * ITEMS_PER_PAGE
    ensures n > 0 ==> (r - 1) * ITEMS_PER_PAGE < n
    ensures r == 0 <==> n == 0
  {
    (n + ITEMS_PER_PAGE - 1) / ITEMS_PER_PAGE
  }

  /** `xs.slice((p - 1) * 6, p * 6)`: never more than six lobbies; from page 1
      on, the lobbies at positions [(p - 1) * 6, p * 6) that exist. */
  function PageOf<T>(xs: seq<T>, p: int): (r: seq<T>)
    ensures |r| <= ITEMS_PER_PAGE
    ensures 1 <= p ==> r == xs[Min((p - 1) * ITEMS_PER_PAGE, |xs|)..Min(p * ITEMS_PER_PAGE, |xs|)]
  {
    Slice(xs, (p - 1) * ITEMS_PER_PAGE, p * ITEMS_PER_PAGE)
  }

  /** From page 1 on, a page has lobbies exactly when it is one of the
      `TotalPages` pages: there is no clamp, so a later page is simply empty. */
  lemma PageNonEmptyIff<T>(xs: seq<T>, p: int)
    requires 1 <= p
    ensures PageOf(xs, p) != [] <==> p <= TotalPages(|xs|)
  {
  }

  /** Lobby `i` of the filtered list is item `i % 6` of page `i / 6 + 1`. */
  lemma PageIndex<T>(xs: seq<T>, i: int)
    requires 0 <= i < |xs|
    ensures i % ITEMS_PER_PAGE < |PageOf(xs, i / ITEMS_PER_PAGE + 1)|
    ensures PageOf(xs, i / ITEMS_PER_PAGE + 1)[i % ITEMS_PER_PAGE] == xs[i]
  {
  }

  /** Pages 1..k, concatenated in order. */
  function ConcatPages<T>(xs: seq<T>, k: nat): seq<T>
  {
    if k == 0 then [] else ConcatPages(xs, k - 1) + PageOf(xs, k)
  }

  /** The first `k` pages are the first `6 k` lobbies. */
  lemma {:induction false} ConcatPagesPrefix<T>(xs: seq<T>, k: nat)
    ensures ConcatPages(xs, k) == xs[..Min(k * ITEMS_PER_PAGE, |xs|)]
  {
    if k > 0 {
      ConcatPagesPrefix(xs, k - 1);
      var a, b := Min((k - 1) * ITEMS_PER_PAGE, |xs|), Min(k * ITEMS_PER_PAGE, |xs|);
      assert xs[..a] + xs[a..b] == xs[..b];
    }
  }

  /** Pages 1..TotalPages, concatenated in order, give back the whole list. */
  lemma PagesPartition<T>(xs: seq<T>)
    ensures ConcatPages(xs, TotalPages(|xs|)) == xs
  {
    ConcatPagesPrefix(xs, TotalPages(|xs|));
    assert xs[..|xs|] == xs;
  }

  /** Seven matching lobbies give two pages, the second holding one lobby. */
  lemma SevenMatchesTwoPages<T>(xs: seq<T>)
    requires |xs| == 7
    ensures TotalPages(|xs|) == 2 && PageOf(xs, 2) == [xs[6]]
  {
  }

  // ----- Rendering -----

  /** What the grid shows: a spinner, the page's lobby cards, or the "no lobby matches" box. */
  datatype GridState = Spinner | Cards(shown: seq<Lobby>) | NoMatch

  function Grid(loading: bool, paginated: seq<Lobby>): (r: GridState)
    ensures r.Spinner? <==> loading
    ensures r.Cards? <==> !loading && paginated != []
    ensures r.NoMatch? <==> !loading && paginated == []
    ensures r.Cards? ==> r.shown == paginated
  {
    if loading then Spinner else if |paginated| > 0 then Cards(paginated) else NoMatch
  }

  /** The pagination bar is rendered when not loading and there is more than one page. */
  predicate ControlsShown(loading: bool, totalPages: int)
  {
    !loading && totalPages > 1
  }

  /** The Lobbies page's state: one field per `useState` hook. */
  class LobbiesController {
    var day: Day
    var loading: bool
    var dayData: Option<DayData>
    var selectedRound: int
    var searchLobby: string
    var currentPage: int

    /** Every handler keeps the current page at 1 or above. */
    ghost predicate Valid()
      reads this
    {
      currentPage >= 1
    }

    function CurrentRoundLobbies(): seq<Lobby>
      reads this
    {
      RoundLobbies(dayData, selectedRound)
    }

    function FilteredLobbies(): seq<Lobby>
      reads this
    {
      FilterByName(CurrentRoundLobbies(), searchLobby)
    }

    function PageCount(): nat
      reads this
    {
      TotalPages(|FilteredLobbies()|)
    }

    function PaginatedLobbies(): seq<Lobby>
      reads this
    {
      PageOf(FilteredLobbies(), currentPage)
    }

    function View(): GridState
      reads this
    {
      Grid(loading, PaginatedLobbies())
    }

    constructor ()
      ensures Valid()
      ensures day == 1 && !loading && dayData == None && selectedRound == 1
      ensures searchLobby == "" && currentPage == 1
    {
      day := 1;
      loading := false;
      dayData := None;
      selectedRound := 1;
      searchLobby := "";
      currentPage := 1;
    }

    /** The "Day 1" / "Day 2" buttons. */
    method ClickDay(d: Day)
      requires Valid()
      modifies this
      ensures Valid()
      ensures day == d && currentPage == 1
      ensures loading == old(loading) && dayData == old(dayData)
      ensures selectedRound == old(selectedRound) && searchLobby == old(searchLobby)
      ensures PaginatedLobbies() == FilteredLobbies()[..Min(ITEMS_PER_PAGE, |FilteredLobbies()|)]
    {
      day := d;
      currentPage := 1;
    }

    /** The button of round `i` of the loaded day (one is rendered per round). */
    method ClickRound(i: nat)
      requires Valid()
      requires dayData.Some? && i < |dayData.value.rounds|
      modifies this
      ensures Valid()
      ensures day == old(day) && loading == old(loading) && dayData == old(dayData)
      ensures searchLobby == old(searchLobby)
      ensures selectedRound == dayData.value.rounds[i].roundNumber && currentPage == 1
      ensures (forall j :: 0 <= j < |dayData.value.rounds| && j != i ==>
                 dayData.value.rounds[j].roundNumber != dayData.value.rounds[i].roundNumber)
              ==> CurrentRoundLobbies() == dayData.value.rounds[i].lobbies
      ensures PaginatedLobbies() == FilteredLobbies()[..Min(ITEMS_PER_PAGE, |FilteredLobbies()|)]
    {
      selectedRound := dayData.value.rounds[i].roundNumber;
      currentPage := 1;
    }

    /** Typing in the lobby search box. */
    method EditSearch(text: string)
      requires Valid()
      modifies this
      ensures Valid()
      ensures searchLobby == text && currentPage == 1
      ensures day == old(day) && loading == old(loading) && dayData == old(dayData)
      ensures selectedRound == old(selectedRound)
      ensures PaginatedLobbies() == FilteredLobbies()[..Min(ITEMS_PER_PAGE, |FilteredLobbies()|)]
    {
      searchLobby := text;
      currentPage := 1;
    }

    /** `handlePageChange` from a click on a pagination button. */
    method Click(b: PageButton)
      requires Valid()
      modifies this
      ensures Valid()
      ensures currentPage == if ControlsShown(loading, PageCount()) then Press(old(currentPage), PageCount(), b)
                             else old(currentPage)
      ensures old(1 <= currentPage <= PageCount()) ==> 1 <= currentPage <= PageCount()
      ensures day == old(day) && loading == old(loading) && dayData == old(dayData)
      ensures selectedRound == old(selectedRound) && searchLobby == old(searchLobby)
    {
      if ControlsShown(loading, PageCount()) {
        currentPage := Press(currentPage, PageCount(), b);
      }
    }

    /** The start of `fetchLobbies`: the spinner is shown and the day's path requested. */
    method BeginFetch() returns (path: string)
      requires Valid()
      modifies this
      ensures Valid()
      ensures loading && path == LobbiesPath(day)
      ensures View() == Spinner
      ensures day == old(day) && dayData == old(dayData) && selectedRound == old(selectedRound)
      ensures searchLobby == old(searchLobby) && currentPage == old(currentPage)
    {
      loading := true;
      path := LobbiesPath(day);
    }

    /** The end of `fetchLobbies`: a successful body replaces the day's data and
        selects its first round; a failure keeps both; the spinner ends either way. */
    method CompleteFetch(response: Response<DayData>)
      requires Valid()
      modifies this
      ensures Valid()
      ensures !loading && !View().Spinner?
      ensures Succeeded(response) ==> dayData == Some(response.body.data)
      ensures Succeeded(response) ==>
        selectedRound == if response.body.data.rounds != [] then response.body.data.rounds[0].roundNumber
                         else old(selectedRound)
      ensures Succeeded(response) && response.body.data.rounds != [] ==>
        CurrentRoundLobbies() == response.body.data.rounds[0].lobbies
      ensures !Succeeded(response) ==> dayData == old(dayData) && selectedRound == old(selectedRound)
      ensures day == old(day) && searchLobby == old(searchLobby) && currentPage == old(currentPage)
    {
      if Succeeded(response) {
        dayData := Some(response.body.data);
        if |response.body.data.rounds| > 0 {
          selectedRound := response.body.data.rounds[0].roundNumber;
        }
      }
      loading := false;
    }
  }
}
