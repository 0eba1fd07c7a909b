# Tournament hub front end: list-view controllers in Dafny

The application is a read-only single-page front end for a TFT qualifier.
It has three pages: a leaderboard, the lobby assignments of each round, and a
player directory. Each page keeps a small controller state in React hooks:
the page number, a search text, a sort column and order, and a day or round
selector. From that state it derives the next GET request, or (on the Lobbies
page) a filtered and paginated view of data it already holds. This project
models those three controllers and proves what they promise.

Modules:

- `Common` (common.dfy): `Option`, the day selector `Day` (1 or 2), the server's
  `PaginationMeta`, and the response of a GET (`TransportError`, or a body
  with a `success` flag, a payload and optional `meta`).
- `JsString` (jsstring.dfy): the JavaScript built-ins the pages call, each
  given by its defining property. They are `toLowerCase` (ASCII letters),
  `includes`, `trim` (the ECMAScript white-space and line-terminator set) and
  `Array.prototype.slice` (negative and out-of-range indices included).
- `Paging` (paging.dfy): the pagination bar the pages share. Prev is disabled
  on page 1, Next on the last page, and numbered button `i` requests page
  `i + 1`. A click on a disabled or absent button does nothing. It also proves
  that clicks never leave `[1, totalPages]` and that every page can be reached.
- `Lobbies` (lobbies.dfy): the round lookup, the case-insensitive name
  filter, `ceil(n / 6)` pages cut with `slice`, and the page's controller class.
- `Leaderboard` (leaderboard.dfy): the sort toggle, the sort icon, the endpoint
  and the five query parameters, and the page's controller class.
- `Players` (players.dfy): the endpoint chosen on the trimmed search text, the
  query parameters, row numbering across pages, the three table-body states,
  and the page's controller class.

Each controller is a class whose fields are the component's `useState`
hooks. Each event handler is a method. Every method states the whole new
state and keeps `Valid()`, which says the page number is at least 1. An HTTP
fetch is split into two methods. `BeginFetch` sets `loading` and returns the
request derived from the state. `CompleteFetch(response)` applies a response
given as an input.

Points where the code behaves in ways one might not expect, all modelled as written:

- There is no clamp on the page number. Clicks keep the page within
  [1, totalPages] only while the page count stays the same. On the Lobbies
  page the bar is hidden while loading, so that holds there. On the
  Leaderboard and Players pages the bar stays clickable with the old
  metadata while a fetch runs, and a finished fetch replaces the metadata
  without touching the page. Example: five pages are shown, a filter or
  search is typed (page 1, fetch pending), Next is clicked (page 2), and the
  response reports one page. The page stays at 2, the bar disappears and the
  table is empty ("no players" on the Players page). `StuckPageAfterShrink`
  in both modules states this sequence. A Lobbies page past the last is
  simply empty.
- A failed fetch, or a body whose `success` is false, leaves the previous
  data and pagination in place. Nothing is cleared.
- On the Lobbies page the first round is re-selected by every successful
  fetch, not by the day click. A day with no rounds keeps the old selection.
- The Leaderboard has no "no results" row. When not loading it maps `data`
  to rows, whatever its length.
- `name` is sent on every Leaderboard and Players request, not only on the
  search variant. On Players it is sent untrimmed.

## Model

| member | source | states |
|---|---|---|
| `JsString.ToLowerCase` | src/Pages/Lobbies.tsx:72 | lower-casing keeps the length, maps A-Z to a-z and leaves every other character alone; no upper-case ASCII letter remains |
| `JsString.ToLowerCaseIdempotent` | src/Pages/Lobbies.tsx:72 | lower-casing an already lower-cased string changes nothing |
| `JsString.IncludesIff` | src/Pages/Lobbies.tsx:72 | `s.includes(t)` holds exactly when `t` occurs as a contiguous segment of `s` |
| `JsString.IncludesEmpty` | src/Pages/Lobbies.tsx:72 | every string includes the empty string |
| `JsString.TrimStart` | src/Pages/Players.tsx:40 | the result is the suffix left after removing only leading white space; it does not start with white space |
| `JsString.TrimEnd` | src/Pages/Players.tsx:40 | the result is the prefix left after removing only trailing white space; it does not end with white space |
| `JsString.Trim` | src/Pages/Players.tsx:40 | `trim()` is a segment of the input with white space only outside it and at neither end; it is empty iff the input is all white space |
| `JsString.Slice` | src/Pages/Lobbies.tsx:77-80 | `slice(start, end)` has at most `end - start` elements; for 0 <= start <= end it is the segment between the clamped indices; a negative index counts back from the end (`slice(-k, end)` with end >= length is the last k elements, two negative indices give the segment between length + start and length + end, and a start before the beginning is clamped to 0) |
| `Paging.Press` | src/Pages/Players.tsx:172-201 | a disabled button changes nothing (Prev at page 1, Next at the last page, no button outside [0, totalPages)); a numbered button `i` goes to page `i + 1`; an enabled Prev goes to `page - 1` and an enabled Next to `page + 1`; a click keeps the page >= 1 and keeps it in [1, totalPages] |
| `Paging.NavigateStaysInRange` | src/Pages/Players.tsx:166-200 | any sequence of pagination clicks starting inside [1, totalPages] stays inside it |
| `Paging.NextsAdvance` | src/Pages/Leaderboard.tsx:248-254 | `k` clicks on Next from page `p` land on page `p + k` while that is a page |
| `Paging.EveryPageReachable` | src/Pages/Leaderboard.tsx:241-254 | every page in [1, totalPages] is reached from page 1 by Next clicks alone |
| `Lobbies.LobbiesPath` | src/Pages/Lobbies.tsx:46 | the request path is `/api/lobbies/` followed by the digit of the selected day |
| `Lobbies.FindRound` | src/Pages/Lobbies.tsx:67-68 | `find` returns the first round numbered `n`, or none when no round has that number |
| `Lobbies.RoundLobbies` | src/Pages/Lobbies.tsx:67-68 | the shown lobbies are those of the first round numbered `selectedRound`; empty when nothing is loaded or no round has that number |
| `Lobbies.FilterByName` | src/Pages/Lobbies.tsx:71-73 | the filtered list is an order-preserving subsequence of the round's lobbies, all of which match the search |
| `Lobbies.FilterMultiplicity` | src/Pages/Lobbies.tsx:71-73 | each matching lobby is kept as often as it occurs; a non-matching lobby never appears |
| `Lobbies.FilterMembership` | src/Pages/Lobbies.tsx:71-73 | a lobby survives the filter iff it is in the round and its lower-cased name contains the lower-cased search |
| `Lobbies.FilterEmptySearchKeepsAll` | src/Pages/Lobbies.tsx:71-73 | an empty search keeps every lobby, in order |
| `Lobbies.FilterIgnoresSearchCase` | src/Pages/Lobbies.tsx:72 | typing the search in lower case filters exactly as typing it in any case |
| `Lobbies.TotalPages` | src/Pages/Lobbies.tsx:76 | `Math.ceil(n / 6)` is the fewest pages of six that hold `n` lobbies; it is 0 iff `n` is 0 |
| `Lobbies.PageOf` | src/Pages/Lobbies.tsx:77-80 | a page never holds more than six lobbies; from page 1 on it holds the lobbies at positions [(p-1)*6, p*6) that exist |
| `Lobbies.PageNonEmptyIff` | src/Pages/Lobbies.tsx:76-80 | from page 1 on, a page is non-empty iff p <= totalPages; a later page is empty, with no clamp |
| `Lobbies.PageIndex` | src/Pages/Lobbies.tsx:77-80 | lobby `i` of the filtered list is item `i % 6` of page `i / 6 + 1` |
| `Lobbies.ConcatPagesPrefix` | src/Pages/Lobbies.tsx:77-80 | the first `k` pages, concatenated in order, are the first `6k` lobbies |
| `Lobbies.PagesPartition` | src/Pages/Lobbies.tsx:76-80 | pages 1..totalPages, concatenated in order, give back the filtered list |
| `Lobbies.SevenMatchesTwoPages` | src/Pages/Lobbies.tsx:76-80 | seven matches give two pages, and the second holds only the seventh lobby |
| `Lobbies.Grid` | src/Pages/Lobbies.tsx:176-233 | exactly one of spinner (while loading), the page's lobby cards (page non-empty), or the "no lobby matches" box |
| `Lobbies.LobbiesController.constructor` | src/Pages/Lobbies.tsx:29-38 | day 1, not loading, no data, round 1, empty search, page 1 |
| `Lobbies.LobbiesController.ClickDay` | src/Pages/Lobbies.tsx:102-127 | sets the day and page 1, leaves the round and search alone; the first six filtered lobbies are shown |
| `Lobbies.LobbiesController.ClickRound` | src/Pages/Lobbies.tsx:138-153 | selects the clicked round's number and page 1; when round numbers are distinct its own lobbies are shown |
| `Lobbies.LobbiesController.EditSearch` | src/Pages/Lobbies.tsx:166-169 | sets the search text and page 1, leaves day and round alone |
| `Lobbies.LobbiesController.Click` | src/Pages/Lobbies.tsx:236-267 | the bar exists only when not loading and there are 2+ pages; a click applies `Press`, keeping the page in [1, totalPages] |
| `Lobbies.LobbiesController.BeginFetch` | src/Pages/Lobbies.tsx:42-46 | sets `loading`, so the grid shows the spinner, and requests the selected day's path |
| `Lobbies.LobbiesController.CompleteFetch` | src/Pages/Lobbies.tsx:47-58 | on success the day's data is replaced and its first round selected and shown; otherwise data and round are kept; `loading` ends false, so the grid leaves the spinner |
| `Leaderboard.ToggleSort` | src/Pages/Leaderboard.tsx:70-76 | the key becomes the clicked one; the order is ascending iff the same key was active and descending |
| `Leaderboard.ToggleActiveFlips` | src/Pages/Leaderboard.tsx:70-76 | clicking the active column keeps it and flips its order |
| `Leaderboard.ToggleTwiceRestores` | src/Pages/Leaderboard.tsx:70-76 | two clicks on a column from descending return to descending |
| `Leaderboard.ClickHeaderAlternates` | src/Pages/Leaderboard.tsx:70-76 | `n` clicks on an inactive column give descending for odd `n`, ascending for even `n` |
| `Leaderboard.SortIconFor` | src/Pages/Leaderboard.tsx:78-86 | neutral iff the column is inactive, down iff active and descending, up iff active and ascending |
| `Leaderboard.IconAfterToggle` | src/Pages/Leaderboard.tsx:70-86 | after a click the column's arrow turns up if it was down and down otherwise; every other column turns neutral |
| `Leaderboard.Endpoint` | src/Pages/Leaderboard.tsx:42-43 | the path starts with the day's base path and ends in `/search` iff the untrimmed filter is non-empty |
| `Leaderboard.EndpointRoundTrip` | src/Pages/Leaderboard.tsx:42-43 | the path reads back to the day (`/api/leaderboard` vs `/api/leaderboard2`) and whether a filter was typed |
| `Leaderboard.EndpointInjective` | src/Pages/Leaderboard.tsx:42-43 | two days, or an empty and a non-empty filter, never share a path |
| `Leaderboard.RequestFor` | src/Pages/Leaderboard.tsx:42-53 | parameters are exactly page, limit 10, name, sortBy = the key and order asc/desc from the sort |
| `Leaderboard.Body` | src/Pages/Leaderboard.tsx:174-229 | a spinner iff loading, otherwise one row per entry with no empty-state branch |
| `Leaderboard.LeaderboardController.constructor` | src/Pages/Leaderboard.tsx:25-37 | day 1, no data or metadata, page 1, sort by totalPoint descending, empty filter |
| `Leaderboard.LeaderboardController.HandleSort` | src/Pages/Leaderboard.tsx:70-76 | applies `ToggleSort` and sets page 1; day and filter unchanged |
| `Leaderboard.LeaderboardController.ClickDay` | src/Pages/Leaderboard.tsx:102-117 | sets the day and page 1; sort and filter unchanged |
| `Leaderboard.LeaderboardController.EditFilter` | src/Pages/Leaderboard.tsx:128-133 | sets the filter and page 1; sort and day unchanged |
| `Leaderboard.LeaderboardController.Click` | src/Pages/Leaderboard.tsx:235-256 | Prev/Next exist only when metadata reports 2+ pages; a click applies `Press`, keeping the page in [1, totalPages] |
| `Leaderboard.LeaderboardController.BeginFetch` | src/Pages/Leaderboard.tsx:39-53 | sets `loading`, so the table shows the spinner, and issues `RequestFor` the current day, page, filter and sort |
| `Leaderboard.LeaderboardController.CompleteFetch` | src/Pages/Leaderboard.tsx:55-63 | entries and metadata are replaced only on a successful body, and the table then shows exactly those entries; `loading` ends false either way |
| `Leaderboard.StuckPageAfterShrink` | src/Pages/Leaderboard.tsx:55-58 | with the Prev/Next bar of lines 235-254 live during a fetch, a Next click while a filtered request is pending leaves page 2 after a one-page response: no bar and an empty table |
| `Players.Endpoint` | src/Pages/Players.tsx:40-42 | the path is one of the two player endpoints |
| `Players.EndpointIff` | src/Pages/Players.tsx:40-42 | the search endpoint is used iff the search text has a non-white-space character |
| `Players.RequestFor` | src/Pages/Players.tsx:40-50 | parameters are exactly page, limit 10 and the untrimmed search text as `name` |
| `Players.RequestForPathIff` | src/Pages/Players.tsx:40-44 | the request goes to `/api/players/search` iff the search text has a non-white-space character, whatever the page |
| `Players.BlankSearchListsAll` | src/Pages/Players.tsx:40-49 | white space alone lists all players yet is still sent as `name` |
| `Players.RowNumberRoundTrip` | src/Pages/Players.tsx:126 | a row number is >= 1 on page 1 and later, and gives back its page and its index on the page |
| `Players.RowNumbersDistinct` | src/Pages/Players.tsx:126 | no two rows of any pages share a number |
| `Players.RowNumbers` | src/Pages/Players.tsx:120-126 | a page's numbers start after the previous pages' rows, are consecutive and strictly increasing, and are >= 1 from page 1 on |
| `Players.RowNumberIsGlobalPosition` | src/Pages/Players.tsx:126 | when the server returns slices of ten, a row's number is that player's 1-based position in the whole list |
| `Players.Body` | src/Pages/Players.tsx:113-160 | exactly one of spinner (loading), numbered rows (data non-empty) or the "no players" row |
| `Players.PlayersController.constructor` | src/Pages/Players.tsx:29-33 | no data or metadata, not loading, page 1, empty search |
| `Players.PlayersController.HandleSearchChange` | src/Pages/Players.tsx:67-70 | sets the search text and page 1 |
| `Players.PlayersController.Click` | src/Pages/Players.tsx:166-203 | the bar exists only when metadata reports 2+ pages; a click applies `Press`, keeping the page in [1, totalPages] |
| `Players.PlayersController.BeginFetch` | src/Pages/Players.tsx:36-50 | sets `loading`, so the spinner shows, and issues `RequestFor` the current page and search |
| `Players.PlayersController.CompleteFetch` | src/Pages/Players.tsx:52-60 | players and metadata are replaced only on a successful body; `loading` ends false (`finally`); an empty successful list shows "no players" |
| `Players.StuckPageAfterShrink` | src/Pages/Players.tsx:52-55 | with the bar of lines 166-201 live during a fetch, a Next click while a search is pending leaves page 2 after a one-page response: no bar and "no players" |

## Left out

- The HTTP calls (`axios.get`), `API_BASE_URL` and `import.meta.env`: a response is an input to `CompleteFetch`, and a body is taken as already well-typed.
- The `useEffect`/`useCallback` wiring that refetches when state changes, and the order in which overlapping responses arrive. The source neither sequences nor cancels requests, so stale responses are a concurrency matter outside this model.
- `console.error` logging in the `catch` branches, and `window.scrollTo` in the Lobbies page-change handler: side effects with no state.
- JSX rendering, styling, icons, medal colours and `toLocaleString` formatting. Only the choice of what a table or grid shows is modelled.
- JsString.ToLowerCase: lower-cases ASCII letters only. JavaScript's `toLowerCase` also maps non-ASCII letters, and JavaScript strings are UTF-16 code units, while Dafny `char` is a Unicode scalar value.
- src/Layouts/Layout.tsx (navigation chrome, whose only logic is `pathname === item.path`), src/App.tsx (a declarative route table redirecting `/` and `*` to `/leaderboard`) and vite.config.ts (build settings) are not part of this model.
- `matches` having six entries is never checked or relied on by the source, so it is not an invariant here.
