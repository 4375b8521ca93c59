# Game search front end: the search sessions, the sync flow and the result views

This project models the client-side core of a browser front end for a game-indexing
service. The page keeps two independent search sessions. "meili" searches the
service's own index. "google" searches the web through the service. Each session holds
a query, a result list, a loading flag, a "has searched" flag and an error. A search
runs in two steps with an `await` between them. The first step is a blank-query guard
followed by a synchronous begin step. The second step is one of three completions:
success, failure reported by the server, or a thrown request. A sync operation asks the
server to resynchronise its database. After it succeeds, it re-runs the index search if that
session has searched and its query is not blank.

The result list shows one of five views. It tells the two result shapes apart by which
properties are present, and gives every card a key. The cards choose a badge colour,
a click action, a details line and a list of magnet links. The search bar decides when
a key press or a click submits the query.

Files, one module per source file:

- `js_text.dfy` (`JsText`): the JavaScript built-ins the core relies on. These are
  `trim` (with the ECMA-262 white-space set), ASCII `toLowerCase`, `includes`, and the
  decimal text of a non-negative integer with its parser.
- `optional.dfy` (`Optional`): a value that may be absent (`null`).
- `api.dfy` (`Api`): lib/api.ts. It holds the result value (present properties plus
  values), the two type guards, the response envelope and the endpoint URLs.
- `page.dfy` (`Page`): app/page.tsx. The session state updaters are pure functions.
  Traces of events over them give the properties that span several calls. The
  `Session` class holds one session's fields, with one method per transition. The
  `Home` class holds both sessions, the `isSyncing` flag and the raised toasts.
- `game_list.dfy` (`GameList`): components/game-list.tsx, the view selection, the
  count label and the card keys.
- `game_card.dfy` (`GameCard`): components/game-card.tsx, the badge, the click, the
  details and the magnet links.
- `search_bar.dfy` (`SearchBar`): components/search-bar.tsx, the key and button
  predicates.

Asynchrony is modelled as separate events. Calling a handler runs the code before its
`await`; the code after it is a separate method (`Session.Settle` and its three
completions, `Home.CompleteSync`). Those methods may be called in any order, so
overlapping calls and responses that arrive out of order are covered. A handler uses
the values from the render in which it was created. The model passes them explicitly.
`Session.Search` takes the query the handler closed over. `Home.BeginSync` returns a
`SyncTicket` with the index session's `hasSearched` and query at the time of the
click, and `Home.CompleteSync` decides the re-run from that ticket, as the code does
(app/page.tsx:126-127).

Points where the code behaves differently from what one might expect, modelled as the code has them:

- The request carries the query as typed, untrimmed (app/page.tsx:54). Trimming is
  used only by the guard.
- A successful completion does not clear `error` (app/page.tsx:57-61). A single
  search ends with no error only because its begin step cleared it. After two
  overlapping searches, an error left by one survives the other's success (see
  `Page.OverlappingSearches`).
- The re-run after a sync uses the index session as it was when the sync was
  started, not as it is when the sync completes.
- Anything that is not traditional is rendered as a web result (snippet, synthesized
  key), whether or not it carries a snippet.

## Model

| member | source | states |
|---|---|---|
| `JsText.TrimStart` | app/page.tsx:44 | trimming the start leaves a suffix that does not begin with white space; everything removed was white space |
| `JsText.TrimEnd` | app/page.tsx:44 | trimming the end leaves a prefix that does not end with white space; everything removed was white space |
| `JsText.Trim` | app/page.tsx:44 | `trim()` gives the slice of the input with only white space around it, and the slice neither begins nor ends with white space |
| `JsText.BlankIffAllWhitespace` | components/search-bar.tsx:25 | `!s.trim()` holds iff every character of `s` is ECMA-262 white space or a line terminator |
| `JsText.ToLower` | components/game-card.tsx:161 | lower-casing keeps the length and lower-cases each character in place |
| `JsText.ToLowerIdempotent` | components/game-card.tsx:161 | lower-casing an already lower-cased string changes nothing |
| `JsText.Includes` | components/game-card.tsx:162-165 | `includes`, scanning start positions left to right; stated by `JsText.IncludesIff` and `JsText.IncludesToLower` |
| `JsText.IncludesIff` | components/game-card.tsx:162 | the left-to-right `includes` scan holds iff the substring occurs at some position |
| `JsText.IncludesToLower` | components/game-card.tsx:161-165 | an occurrence of a word in the source survives lower-casing of both |
| `JsText.Decimal` | components/game-list.tsx:75 | the decimal text of an index is non-empty, all digits, with no leading zero except "0" |
| `JsText.DecimalRoundTrip` | components/game-list.tsx:75 | parsing the decimal text of `n` gives back `n` |
| `JsText.DecimalInjective` | components/game-list.tsx:75 | different numbers have different decimal texts |
| `Api.IsTraditional` | lib/api.ts:26-28 | `isTraditionalGame`: its contract is stated by `Api.TraditionalIffMarkers`, `Api.MissingMarkerNotTraditional`, `Api.GuardsIgnoreValues` and `Api.GuardsNotExclusive` |
| `Api.IsGoogle` | lib/api.ts:31-33 | `isGoogleGame`, true iff `snippet` is present; stated with the other guard by `Api.GuardsIgnoreValues`, `Api.ConformingIsClassified` and `Api.GuardsNotExclusive` |
| `Api.TraditionalIffMarkers` | lib/api.ts:26-28 | `isTraditionalGame` holds iff `id`, `size` and `uploadDate` are all present |
| `Api.MissingMarkerNotTraditional` | lib/api.ts:27 | missing any one of the three marker fields makes a value non-traditional, whatever else it has |
| `Api.GuardsIgnoreValues` | lib/api.ts:26-33 | both guards depend only on which properties are present, never on their values |
| `Api.ConformingIsClassified` | lib/api.ts:22-33 | every value that has all fields of one member of the `Game` union passes at least one guard |
| `Api.GuardsNotExclusive` | lib/api.ts:26-33 | some value passes both guards, and some value passes neither (a TraditionalGame without its upload date) |
| `Api.SyncUrl` | lib/api.ts:61 | the sync URL is the base URL followed by exactly "/games/sync" |
| `Api.SyncUrlIsNotSearch` | lib/api.ts:45-62 | on one base, the sync URL is never a search URL, whatever the endpoint, the query and the encoder |
| `Api.SearchPath` | lib/api.ts:45-56 | the two search endpoints; how they differ is stated by `Api.GoogleUrlInsertsSegment` and `Api.SearchUrlInjective` |
| `Api.SearchUrl` | lib/api.ts:45-56 | the fetched URL of `searchMeili`/`searchGoogle`; it is stated by `Api.GoogleUrlInsertsSegment`, `Api.SearchUrlInjective` and `Api.SyncUrlIsNotSearch` |
| `Api.GoogleUrlInsertsSegment` | lib/api.ts:46-55 | the web-search URL is the index-search URL with "/google" inserted after "/games/search", for any encoder |
| `Api.SearchUrlInjective` | lib/api.ts:45-56 | two equal search URLs on one base go to the same endpoint and carry the same encoded query |
| `SearchBar.Placeholder` | components/search-bar.tsx:22 | the placeholder is the given one, or "Search for games..." when none is given |
| `SearchBar.KeyDownSearches` | components/search-bar.tsx:24-28 | a key press calls `onSearch` iff the key is Enter and the value has a character that is not white space |
| `SearchBar.ButtonDisabled` | components/search-bar.tsx:45 | the button is disabled iff a search is loading or the value is all white space |
| `SearchBar.ClickSearches` | components/search-bar.tsx:43-45 | a click calls `onSearch` iff nothing is loading and the value is not all white space |
| `SearchBar.ButtonContentFor` | components/search-bar.tsx:48-52 | the button shows a spinner iff loading, and the label "Search" otherwise |
| `SearchBar.EnterBypassesLoadingGuard` | components/search-bar.tsx:24-45 | while loading, with a non-blank value, the button is disabled and a click does nothing, yet Enter still calls `onSearch` |
| `SearchBar.EnterAgreesWithButtonWhenIdle` | components/search-bar.tsx:24-45 | when nothing is loading, Enter and the button submit exactly the same values |
| `GameList.CountLabel` | components/game-list.tsx:70 | the count label is "Found ", then digits that parse back to the count and have no leading zero unless the count is 0, then " game" when the count is 1 and " games" otherwise |
| `GameList.CountLabelInjective` | components/game-list.tsx:70 | different counts give different labels |
| `GameList.CardKey` | components/game-list.tsx:75 | the key of one card; stated by `GameList.KeyRecoversIndex`, `GameList.SynthesizedKeysDistinct`, `GameList.TraditionalKeysDistinctIff` and `GameList.MixedKeysCanCollide` |
| `GameList.CardKeys` | components/game-list.tsx:73-75 | there is one key per game, and the key at position i is the key of game i at index i |
| `GameList.SelectView` | components/game-list.tsx:23-81 | which view the result area shows; the priority order is stated by `GameList.LoadingWins`, `GameList.ErrorBeatsResults` and `GameList.GridIffFound` |
| `GameList.LoadingWins` | components/game-list.tsx:23-34 | while loading, the spinner is shown whatever the error, the search flag and the games; its text is "Searching database..." for meili and "Searching Google..." for google |
| `GameList.ErrorBeatsResults` | components/game-list.tsx:36-43 | not loading, a non-empty error is shown with its message, whatever the games and the search flag |
| `GameList.GridIffFound` | components/game-list.tsx:45-70 | not loading and no error to show: the welcome view iff not searched, "No games found" iff searched with no games, and the list view iff searched with at least one game, holding all games, the keys `GameList.CardKeys` of the games, and the count label |
| `GameList.KeyRecoversIndex` | components/game-list.tsx:75 | for a non-traditional game, the digits after the key's last '-' give back its index, whatever the title |
| `GameList.SynthesizedKeysDistinct` | components/game-list.tsx:73-75 | two non-traditional games at different positions get different keys |
| `GameList.TraditionalKeysDistinctIff` | components/game-list.tsx:75 | for traditional games, the keys are pairwise distinct iff the identifiers are |
| `GameList.MixedKeysCanCollide` | components/game-list.tsx:75 | a traditional game with id "Doom-1" and a web result titled "Doom" at index 1 get the same key |
| `GameCard.ClassName` | components/game-card.tsx:163-168 | the three class lists `getSourceColor` returns; `GameCard.Card` states the badge gets "shrink-0 " plus the list of the chosen style |
| `GameCard.SourceColor` | components/game-card.tsx:160-169 | `getSourceColor`, which returns `GameCard.ClassName` of the chosen style; stated by `GameCard.FitgirlIsPink`, `GameCard.DodiIsBlue`, `GameCard.NeitherIsPrimary` and `GameCard.SourceColorIgnoresCase` |
| `GameCard.FitgirlIsPink` | components/game-card.tsx:161-164 | a source containing "fitgirl" in any letter case is pink, even if it also contains "dodi" |
| `GameCard.DodiIsBlue` | components/game-card.tsx:165-167 | a source containing "dodi" in any case and no "fitgirl" is blue |
| `GameCard.NeitherIsPrimary` | components/game-card.tsx:168 | a source with neither word gets the primary style |
| `GameCard.SourceColorIgnoresCase` | components/game-card.tsx:161 | the badge of the lower-cased source is the badge of the source |
| `GameCard.ClickEffectOf` | components/game-card.tsx:171-177 | a click opens the page URL iff it is present and non-empty; otherwise it raises "Invalid source URL" |
| `GameCard.DetailsOf` | components/game-card.tsx:198-213 | the card shows size and upload date iff the value is traditional, and otherwise the snippet (nothing when the snippet is absent) |
| `GameCard.MagnetLabelAsWritten` | components/game-card.tsx:78 | the caption as the code renders it: the index prop is `position + 1`, and the caption prints it plus one again; stated by `GameCard.FirstMagnetLabelAsWritten` and `GameCard.MagnetLabelAsWrittenNumber` |
| `GameCard.FirstMagnetLabelAsWritten` | components/game-card.tsx:218 | as written, the first magnet link is captioned "Magnet Link 2" |
| `GameCard.MagnetLabelAsWrittenNumber` | components/game-card.tsx:78 | as written, the caption of the link at 0-based position i carries the number i + 2 |
| `GameCard.MagnetLabel` | components/game-card.tsx:78 | the corrected caption, numbering from 1; stated by `GameCard.MagnetLabelsNumberFromOne` and `GameCard.MagnetLinksShiftedByOne` |
| `GameCard.MagnetLabelsNumberFromOne` | components/game-card.tsx:218 | corrected, the first caption is "Magnet Link 1", the link at position i carries i + 1, and no two links share a caption |
| `GameCard.MagnetLinksAsWritten` | components/game-card.tsx:215-219 | as rendered: the magnet section is non-empty iff the value is traditional and has a non-empty `uris`; it then has one link per URI, in order, the link at position i captioned with i + 2 |
| `GameCard.MagnetLinks` | components/game-card.tsx:215-219 | the same section with the corrected caption: one link per URI, in order, the link at position i captioned with i + 1 |
| `GameCard.MagnetLinksShiftedByOne` | components/game-card.tsx:78 | the rendered list and the corrected one have the same links in the same order; at every position the rendered caption is the corrected caption of the next position, and never the corrected caption of its own |
| `GameCard.Card` | components/game-card.tsx:179-213 | the card shows the title (nothing if absent), the source with its badge style and the badge class list "shrink-0 " plus that style's classes, the details line and the magnet links with the corrected captions |
| `Page.DefaultFailure` | app/page.tsx:65 | the rejection defaults "Search failed" and "Google search failed" (likewise line 102); stated by `Page.FailureTextsNonEmpty` and `Page.FailureTextsDistinct` |
| `Page.ConnectFailure` | app/page.tsx:73 | the fixed connection messages of the two sessions (likewise line 110); stated by `Page.FailureTextsNonEmpty` and `Page.FailureTextsDistinct` |
| `Page.MessageOr` | app/page.tsx:65 | the fallback expression on the response message gives the message when it is non-empty, and the fallback when it is empty; so it is never empty when the fallback is not |
| `Page.FailureTextsNonEmpty` | app/page.tsx:65-73 | every default rejection text and connection text is non-empty |
| `Page.Edited` | app/page.tsx:173-174 | the `onChange` updater; stated by `Page.Session.Edit` and `Page.OnlyEditsChangeQuery` |
| `Page.Begun` | app/page.tsx:46-51 | the begin updater; stated by `Page.Session.Begin`, `Page.StepHasSearched` and `Page.StepKeepsConsistent` |
| `Page.Succeeded` | app/page.tsx:56-61 | the success updater; stated by `Page.Session.CompleteSuccess`, `Page.LastSettleWins` and `Page.SingleSearch` |
| `Page.Rejected` | app/page.tsx:62-68 | the rejection updater; stated by `Page.Session.CompleteFailure`, `Page.SingleSearch` and `Page.FailureTextsDistinct` |
| `Page.Disconnected` | app/page.tsx:70-76 | the `catch` updater; stated by `Page.Session.CompleteTransportError`, `Page.SingleSearch` and `Page.FailureTextsDistinct` |
| `Page.Settled` | app/page.tsx:53-77 | the code after the `await`; stated by `Page.Session.Settle`, `Page.SettledKeepsConsistent` and `Page.LastSettleWins` |
| `Page.Step` | app/page.tsx:43-77 | one event (an edit, a search handler run, a completion); stated by `Page.StepHasSearched`, `Page.StepKeepsQuery` and `Page.StepKeepsConsistent` |
| `Page.Replay` | app/page.tsx:43-78 | a sequence of events in the order they happen; stated by `Page.HasSearchedNeverFalls`, `Page.OnlyEditsChangeQuery`, `Page.ReplayKeepsConsistent`, `Page.LastSettleWins` and `Page.OverlappingSearches` |
| `Page.BlankSearchIsNoOp` | app/page.tsx:44 | a search on an all-white-space query changes no field of the session |
| `Page.StepHasSearched` | app/page.tsx:50 | after one event, `hasSearched` holds iff it held before or the event is a search that gets past the guard |
| `Page.HasSearchedNeverFalls` | app/page.tsx:46-51 | over any sequence of events `hasSearched` never falls; at the end it holds iff it held at the start or some search got past the guard |
| `Page.StepKeepsQuery` | app/page.tsx:46-76 | a search or a completion keeps the query |
| `Page.OnlyEditsChangeQuery` | app/page.tsx:173-175 | a sequence of events without edits leaves the query as it was |
| `Page.SettledKeepsConsistent` | app/page.tsx:56-76 | every completion stops the spinner, and any error it sets is non-empty |
| `Page.StepKeepsConsistent` | app/page.tsx:46-76 | every event keeps the invariant that the session is not loading while it holds an error, and that an error is never empty |
| `Page.ReplayKeepsConsistent` | app/page.tsx:43-78 | any sequence of events from a consistent state ends consistent |
| `Page.InitialTracesConsistent` | app/page.tsx:28-78 | the initial state is consistent, so a session is consistent after any sequence of events since the page loaded |
| `Page.LastSettleWins` | app/page.tsx:56-76 | the last completion alone decides the results and the loading flag after any history; a failing one also decides the error, and a successful one keeps the earlier error |
| `Page.SingleSearch` | app/page.tsx:53-77 | one search with one response ends as the response says: a success gives its payload (or `[]` for null) with no error; a rejection gives the message or "Search failed"/"Google search failed"; a thrown request gives the fixed connection message |
| `Page.SingleSearchView` | app/page.tsx:183-189 | after one search, a failure shows the error panel with its message, and a success shows the empty-result view or the list |
| `Page.SettledView` | app/page.tsx:56-76 | after any completion of a begun search that holds no error, a failure shows the error panel with its text, and a success shows the empty-result view or the list |
| `Page.OverlappingSearches` | app/page.tsx:43-78 | with two overlapping searches answered in reverse order, the spinner goes away at the first response, the final results are the first search's, and a failure of the second stays as the error and hides them |
| `Page.FailureTextsDistinct` | app/page.tsx:62-76 | each connection message differs from both default rejection messages, the two defaults differ and the two connection messages differ: the four texts are pairwise different |
| `Page.Session.constructor` | app/page.tsx:28-34 | a new session is the initial state: empty query and results, not loading, not searched, no error; that state is consistent |
| `Page.Session.Edit` | app/page.tsx:173-174 | `onChange` sets the query and nothing else |
| `Page.Session.Begin` | app/page.tsx:46-51 | the begin step sets loading, clears the error and sets `hasSearched`, and keeps the query and the previous results |
| `Page.Session.Search` | app/page.tsx:43-54 | a blank captured query changes nothing and sends nothing; any other begins the search and sends exactly the captured, untrimmed query to this session's endpoint |
| `Page.Session.CompleteSuccess` | app/page.tsx:56-61 | success sets the results to the payload, or `[]` for null, stops loading, and leaves the error, query and `hasSearched` alone |
| `Page.Session.CompleteFailure` | app/page.tsx:62-68 | a rejection sets the error to the message, or the session's default when it is empty, clears the results and stops loading |
| `Page.Session.CompleteTransportError` | app/page.tsx:70-76 | a thrown request sets the session's fixed connection message, clears the results and stops loading |
| `Page.Session.Settle` | app/page.tsx:53-77 | a completion takes the success, rejection or connection-failure path according to the outcome |
| `Page.SyncNotice` | app/page.tsx:123-133 | the sync toast is a success iff the server reported success; it shows the server's message when non-empty, else "Database synced successfully" or "Failed to sync database"; a thrown request shows "Failed to connect to server" |
| `Page.RefreshesAfterSync` | app/page.tsx:123-127 | the re-run condition; `Page.Home.CompleteSync` sends the index search iff it holds |
| `Page.Home.constructor` | app/page.tsx:37-41 | the page starts with two fresh, distinct sessions in the initial state, not syncing and with no toasts |
| `Page.Home.Edit` | app/page.tsx:173-174 | editing one tab's query edits that session only; the other is unchanged (likewise lines 198-199) |
| `Page.Home.Search` | app/page.tsx:43-54 | a tab's search handler uses that session's current query and leaves the other session and the sync state unchanged (likewise lines 80-91) |
| `Page.Home.BeginSync` | app/page.tsx:117-118 | starting a sync raises `isSyncing` and keeps the index session's `hasSearched` and query for the completion |
| `Page.Home.CompleteSync` | app/page.tsx:120-136 | a sync completion raises exactly one toast, lowers `isSyncing` on every path, and begins the index search with the kept query iff the server succeeded, the kept state had searched and the kept query is not blank; the web session is untouched |

## Left out

- Network calls: `fetch`, `response.json()` and the HTTP status are not modelled. A
  response is an input to the completion methods: a `ServiceResponse` value, or a
  thrown error (lib/api.ts:42-65).
- `API_BASE_URL` is read from the environment at load time (lib/api.ts:1). In the
  model it is the `base` parameter of the URL functions.
- `encodeURIComponent` is the `enc` parameter of `Api.SearchUrl`. Its percent-encoding
  is not modelled.
- Toasts: the `sonner` library is not modelled. The sync flow appends the toast it
  would raise to `Home.notices`. The card click's "Invalid source URL" toast is the
  `ErrorToast` result of `GameCard.ClickEffectOf`.
- The magnet-link click heuristic and the clipboard copy (components/game-card.tsx:32-67):
  a window blur listener, a two-second timer, and the browser clipboard promise with
  its reset timer. They depend on browser events and timers.
- `formatDate` (components/game-card.tsx:151-158) depends on the runtime's `Date`
  parsing and locale formatting. `GameCard.DetailsOf` carries the raw upload date.
- Presentation: the JSX layout, icons, CSS classes (the badge classes appear only as
  the strings of `GameCard.ClassName` and the card's `badgeClass`), the tabs and the `activeTab` state.
- components/sync-button.tsx is presentational. Its `disabled={isLoading}` only
  reflects `isSyncing`.
- React scheduling and state batching are not modelled. Each updater is applied when
  its event happens. A handler's closure over render-time values is kept only as the
  captured query and the `SyncTicket`.
- `JsText.ToLower`: lower-cases the ASCII letters only. JavaScript's `toLowerCase`
  covers all of Unicode.
- `JsText.IsWhitespace`: uses the space separators of Unicode 15. A JavaScript engine
  uses those of its own Unicode version.
- JSON `null` in a property: a present property always holds a value of its declared
  type.
- `GameCard.MagnetLinks`: uses the corrected caption, "Magnet Link i + 1" at 0-based
  position i. The code renders "Magnet Link i + 2" (see "## Findings"). The rendered
  list is `GameCard.MagnetLinksAsWritten`, and `GameCard.MagnetLinksShiftedByOne`
  relates the two.
- `GameCard.Card`: its magnet links are `GameCard.MagnetLinks`, with the corrected
  captions, not the captions the code renders.
- `GameCard.Card`: requires the `source` property. Without it, `toLowerCase` on
  `undefined` throws while the card renders, and that failure is not modelled.
- `JsText.Decimal`: only the integer form of JavaScript number-to-text conversion.
  Indices large enough for exponent notation cannot occur in an array.

## Findings

| source | as written | input that shows it | evidently intended | confidence | as-written member | corrected member |
|---|---|---|---|---|---|---|
| components/game-card.tsx:218 | the list passes `index + 1` as the link's `index`, and the caption prints `index + 1` again (line 78), so the link at position i is numbered i + 2 | a traditional game with `uris` = ["magnet:?xt=a"] shows a single link captioned "Magnet Link 2" | links numbered from 1: "Magnet Link 1", "Magnet Link 2", ... | high that the numbering starts at 2 as written; medium that 1 was intended; not executed | `GameCard.FirstMagnetLabelAsWritten` | `GameCard.MagnetLabelsNumberFromOne` |

`GameCard.MagnetLinks`, and through it `GameCard.Card`, uses the corrected caption
`GameCard.MagnetLabel`. `GameCard.MagnetLinksAsWritten` is the list as rendered.
