/** The state of the search page, app/page.tsx: two independent search sessions, one
    over the index ("meili") and one over web search ("google"), and a sync operation
    that re-runs the index search once the server has resynchronised its database.

    Every `await` splits an operation in two. The part before it runs when the
    operation is called; the part after it runs as a separate completion event, in
    whatever order responses arrive. */
module Page {
  import opened Optional
  import opened JsText
  import opened Api
  import GameList

  /** `SearchState`: what one session shows. */
  datatype SearchState = SearchState(
    query: string, results: seq<Game>, isLoading: bool, hasSearched: bool, error: Option<string>)

  /** `initialSearchState`. */
  const InitialSearchState := SearchState("", [], false, false, None)

  /** The error shown when the server answers without success and without a message. */
  function DefaultFailure(mode: Mode): string {
    match mode
    case Meili => "Search failed"
    case Google => "Google search failed"
  }

  /** The error shown when the request throws. */
  function ConnectFailure(mode: Mode): string {
    match mode
    case Meili => "Failed to connect to server. Please check if the API is running."
    case Google => "Failed to connect to Google search. Please try again."
  }

  /** No failure text is the empty string, so each one is shown. */
  lemma FailureTextsNonEmpty(mode: Mode)
    ensures DefaultFailure(mode) != "" && ConnectFailure(mode) != ""
  {
    match mode
    case Meili =>
    case Google =>
  }

  /** `message || fallback`: the empty string is falsy. */
  function MessageOr(message: string, fallback: string): (text: string)
    ensures message != "" ==> text == message
    ensures message == "" ==> text == fallback
    ensures fallback != "" ==> text != ""
  {
    if message != "" then message else fallback
  }

  // The updaters the handlers pass to `setMeiliState` and `setGoogleState`, one per call.

  /** `onChange`. */
  function Edited(s: SearchState, value: string): SearchState {
    s.(query := value)
  }

  /** The update made before the request is sent. */
  function Begun(s: SearchState): SearchState {
    s.(isLoading := true, error := None, hasSearched := true)
  }

  /** The update made for a response with `success` set. */
  function Succeeded(s: SearchState, payload: Option<seq<Game>>): SearchState {
    s.(results := payload.GetOr([]), isLoading := false)
  }

  /** The update made for a response without `success`. */
  function Rejected(mode: Mode, s: SearchState, message: string): SearchState {
    s.(error := Some(MessageOr(message, DefaultFailure(mode))), results := [], isLoading := false)
  }

  /** The update made in the `catch` block. */
  function Disconnected(mode: Mode, s: SearchState): SearchState {
    s.(error := Some(ConnectFailure(mode)), results := [], isLoading := false)
  }

  /** The continuation after `await`: the `response.success` test and the `catch`. */
  function Settled(mode: Mode, s: SearchState, outcome: Fetched<seq<Game>>): SearchState {
    match outcome
    case Responded(r) => if r.success then Succeeded(s, r.responseObject) else Rejected(mode, s, r.message)
    case TransportError => Disconnected(mode, s)
  }

  /** What can happen to one session: the query is edited, a search handler runs with
      the query it closed over, or a pending search completes. */
  datatype Event = Edit(value: string) | Search(captured: string) | Settle(outcome: Fetched<seq<Game>>)

  /** A search event that gets past the blank-query guard. */
  predicate StartsSearch(e: Event) {
    e.Search? && !Blank(e.captured)
  }

  function Step(mode: Mode, s: SearchState, e: Event): SearchState {
    match e
    case Edit(v) => Edited(s, v)
    case Search(q) => if Blank(q) then s else Begun(s)
    case Settle(o) => Settled(mode, s, o)
  }

  /** The session after a sequence of events, in the order they happen. */
  function Replay(mode: Mode, s: SearchState, events: seq<Event>): SearchState
    decreases |events|
  {
    if events == [] then s
    else Step(mode, Replay(mode, s, events[..|events| - 1]), events[|events| - 1])
  }

  lemma ReplaySnoc(mode: Mode, s: SearchState, events: seq<Event>, e: Event)
    ensures Replay(mode, s, events + [e]) == Step(mode, Replay(mode, s, events), e)
  {
    assert (events + [e])[..|events|] == events;
  }

  /** Replaying three events is stepping through them in order. */
  lemma ReplayThree(mode: Mode, s: SearchState, a: Event, b: Event, c: Event)
    ensures Replay(mode, s, [a, b, c]) == Step(mode, Step(mode, Step(mode, s, a), b), c)
  {
    assert [] + [a] == [a] && [a] + [b] == [a, b] && [a, b] + [c] == [a, b, c];
    ReplaySnoc(mode, s, [], a);
    ReplaySnoc(mode, s, [a], b);
    ReplaySnoc(mode, s, [a, b], c);
  }

  /** Replaying four events is stepping through them in order. */
  lemma ReplayFour(mode: Mode, s: SearchState, a: Event, b: Event, c: Event, d: Event)
    ensures Replay(mode, s, [a, b, c, d]) == Step(mode, Step(mode, Step(mode, Step(mode, s, a), b), c), d)
  {
    assert [a, b, c] + [d] == [a, b, c, d];
    ReplaySnoc(mode, s, [a, b, c], d);
    ReplayThree(mode, s, a, b, c);
  }

  /** A search on a blank query changes nothing. */
  lemma BlankSearchIsNoOp(mode: Mode, s: SearchState, q: string)
    requires AllWhitespace(q)
    ensures Step(mode, s, Search(q)) == s
  {
    BlankIffAllWhitespace(q);
  }

  /** One event: `hasSearched` never falls, and it rises only on a search that gets
      past the blank-query guard. */
  lemma StepHasSearched(mode: Mode, s: SearchState, e: Event)
    ensures Step(mode, s, e).hasSearched <==> s.hasSearched || StartsSearch(e)
  {
  }

  /** Some event of the sequence satisfies `p`. */
  predicate AnyEvent(events: seq<Event>, p: Event -> bool) {
    exists i :: 0 <= i < |events| && p(events[i])
  }

  lemma AnyEventSnoc(init: seq<Event>, last: Event, p: Event -> bool)
    ensures AnyEvent(init + [last], p) <==> AnyEvent(init, p) || p(last)
  {
    var events := init + [last];
    if AnyEvent(init, p) {
      var i :| 0 <= i < |init| && p(init[i]);
      assert events[i] == init[i];
    }
    if AnyEvent(events, p) {
      var i :| 0 <= i < |events| && p(events[i]);
      if i < |init| {
        assert init[i] == events[i];
      }
    }
    if p(last) {
      assert events[|init|] == last;
    }
  }

  /** Some event of the sequence gets past the blank-query guard. */
  predicate SomeSearchStarts(events: seq<Event>) {
    AnyEvent(events, StartsSearch)
  }

  /** `hasSearched` never falls, and after any sequence of events it holds exactly when
      it held at the start or one of the events got past the blank-query guard. */
  lemma {:induction false} HasSearchedNeverFalls(mode: Mode, s: SearchState, events: seq<Event>)
    ensures s.hasSearched ==> Replay(mode, s, events).hasSearched
    ensures Replay(mode, s, events).hasSearched <==> s.hasSearched || SomeSearchStarts(events)
    decreases |events|
  {
    if events != [] {
      var init := events[..|events| - 1];
      var last := events[|events| - 1];
      assert events == init + [last];
      HasSearchedNeverFalls(mode, s, init);
      StepHasSearched(mode, Replay(mode, s, init), last);
      AnyEventSnoc(init, last, StartsSearch);
    }
  }

  /** Only an edit moves the query. */
  lemma StepKeepsQuery(mode: Mode, s: SearchState, e: Event)
    requires !e.Edit?
    ensures Step(mode, s, e).query == s.query
  {
    match e
    case Search(q) =>
    case Settle(o) =>
      match o
      case Responded(r) =>
      case TransportError =>
  }

  /** Only `onChange` moves the query: without edits it is the query at the start. */
  lemma {:induction false} OnlyEditsChangeQuery(mode: Mode, s: SearchState, events: seq<Event>)
    requires forall i :: 0 <= i < |events| ==> !events[i].Edit?
    ensures Replay(mode, s, events).query == s.query
    decreases |events|
  {
    if events != [] {
      var init := events[..|events| - 1];
      assert forall i :: 0 <= i < |init| ==> init[i] == events[i];
      OnlyEditsChangeQuery(mode, s, init);
      StepKeepsQuery(mode, Replay(mode, s, init), events[|events| - 1]);
    }
  }

  /** The session's standing invariant: it never shows the spinner and an error at once,
      and an error it holds is never the empty string. */
  ghost predicate Consistent(s: SearchState) {
    (s.isLoading ==> s.error == None) && (s.error.Some? ==> s.error.value != "")
  }

  /** A completion keeps the invariant: it stops the spinner, and any error it sets is
      a non-empty text. */
  lemma SettledKeepsConsistent(mode: Mode, s: SearchState, o: Fetched<seq<Game>>)
    requires Consistent(s)
    ensures Consistent(Settled(mode, s, o))
  {
    FailureTextsNonEmpty(mode);
    match o
    case Responded(r) =>
      if r.success {
        assert Settled(mode, s, o) == Succeeded(s, r.responseObject);
      } else {
        assert Settled(mode, s, o) == Rejected(mode, s, r.message);
      }
    case TransportError =>
      assert Settled(mode, s, o) == Disconnected(mode, s);
  }

  /** Every event keeps the invariant. */
  lemma StepKeepsConsistent(mode: Mode, s: SearchState, e: Event)
    requires Consistent(s)
    ensures Consistent(Step(mode, s, e))
  {
    match e
    case Edit(v) =>
    case Search(q) =>
    case Settle(o) =>
      SettledKeepsConsistent(mode, s, o);
  }

  /** So every sequence of events from a consistent state, the initial one included,
      ends consistent. */
  lemma {:induction false} ReplayKeepsConsistent(mode: Mode, s: SearchState, events: seq<Event>)
    requires Consistent(s)
    ensures Consistent(Replay(mode, s, events))
    decreases |events|
  {
    if events != [] {
      ReplayKeepsConsistent(mode, s, events[..|events| - 1]);
      StepKeepsConsistent(mode, Replay(mode, s, events[..|events| - 1]), events[|events| - 1]);
    }
  }

  /** The initial state is consistent, so every session, whatever happened to it since
      the page loaded, is consistent. */
  lemma InitialTracesConsistent(mode: Mode, events: seq<Event>)
    ensures Consistent(InitialSearchState)
    ensures Consistent(Replay(mode, InitialSearchState, events))
  {
    ReplayKeepsConsistent(mode, InitialSearchState, events);
  }

  /** The last completion wins: whatever happened before, it alone decides the results
      and the loading flag, and a failing one alone decides the error. A successful one
      keeps whatever error the session held, so an error left by an overlapping
      search survives it. */
  lemma LastSettleWins(mode: Mode, s: SearchState, events: seq<Event>, s': SearchState, events': seq<Event>,
                       outcome: Fetched<seq<Game>>)
    ensures var a := Replay(mode, s, events + [Settle(outcome)]);
            var b := Replay(mode, s', events' + [Settle(outcome)]);
            a.results == b.results && !a.isLoading && !b.isLoading
            && (outcome.Responded? && outcome.response.success ==> a.error == Replay(mode, s, events).error)
            && (!(outcome.Responded? && outcome.response.success) ==> a.error == b.error && a.error.Some?)
  {
    ReplaySnoc(mode, s, events, Settle(outcome));
    ReplaySnoc(mode, s', events', Settle(outcome));
  }

  /** One search answered by one response ends as the response says: a success shows its
      results with no error (no results for a null payload), a rejection its message or
      the default, a transport failure the fixed connection message. */
  lemma SingleSearch(mode: Mode, s: SearchState, q: string, outcome: Fetched<seq<Game>>)
    requires !Blank(q)
    ensures var r := Replay(mode, s, [Search(q), Settle(outcome)]);
            && r.hasSearched && !r.isLoading && r.query == s.query
            && (outcome.Responded? && outcome.response.success ==>
                  r.error == None && r.results == outcome.response.responseObject.GetOr([]))
            && (outcome.Responded? && !outcome.response.success ==>
                  r.results == [] && r.error == Some(MessageOr(outcome.response.message, DefaultFailure(mode))))
            && (outcome.TransportError? ==> r.results == [] && r.error == Some(ConnectFailure(mode)))
  {
    ReplaySearchSettle(mode, s, q, outcome);
  }

  /** What the result area then shows: an error panel for a failure, and for a success
      the empty-result view or the list, never an error. */
  lemma SingleSearchView(mode: Mode, s: SearchState, q: string, outcome: Fetched<seq<Game>>)
    requires !Blank(q)
    ensures var r := Replay(mode, s, [Search(q), Settle(outcome)]);
            var v := GameList.SelectView(r.results, r.isLoading, r.hasSearched, r.error, mode);
            (outcome.Responded? && outcome.response.success ==> (v.NoGames? || v.Grid?))
            && (outcome.TransportError? ==> v == GameList.ErrorPanel(ConnectFailure(mode)))
            && (outcome.Responded? && !outcome.response.success ==>
                  v == GameList.ErrorPanel(MessageOr(outcome.response.message, DefaultFailure(mode))))
  {
    ReplaySearchSettle(mode, s, q, outcome);
    SettledView(mode, Begun(s), outcome);
  }

  /** One search followed by its completion is the begin step, then the completion. */
  lemma ReplaySearchSettle(mode: Mode, s: SearchState, q: string, outcome: Fetched<seq<Game>>)
    requires !Blank(q)
    ensures Replay(mode, s, [Search(q), Settle(outcome)]) == Settled(mode, Begun(s), outcome)
  {
    assert [] + [Search(q)] == [Search(q)] && [Search(q)] + [Settle(outcome)] == [Search(q), Settle(outcome)];
    ReplaySnoc(mode, s, [], Search(q));
    ReplaySnoc(mode, s, [Search(q)], Settle(outcome));
    assert Step(mode, s, Search(q)) == Begun(s);
  }

  /** The view after a completion of a search that has begun and holds no error. */
  lemma SettledView(mode: Mode, b: SearchState, outcome: Fetched<seq<Game>>)
    requires b.hasSearched && b.error == None
    ensures var r := Settled(mode, b, outcome);
            var v := GameList.SelectView(r.results, r.isLoading, r.hasSearched, r.error, mode);
            (outcome.Responded? && outcome.response.success ==> (v.NoGames? || v.Grid?))
            && (outcome.TransportError? ==> v == GameList.ErrorPanel(ConnectFailure(mode)))
            && (outcome.Responded? && !outcome.response.success ==>
                  v == GameList.ErrorPanel(MessageOr(outcome.response.message, DefaultFailure(mode))))
  {
    FailureTextsNonEmpty(mode);
    match outcome
    case Responded(response) =>
      if response.success {
        assert Settled(mode, b, outcome) == Succeeded(b, response.responseObject);
      } else {
        assert Settled(mode, b, outcome) == Rejected(mode, b, response.message);
      }
    case TransportError =>
      assert Settled(mode, b, outcome) == Disconnected(mode, b);
  }

  /** Two overlapping searches whose responses arrive in reverse order: the spinner goes
      away at the first response though a request is still pending, and the final
      results are those of the first search. If the second search failed and the first
      succeeded, the failure's error stays next to the first search's results, and the
      error panel hides them. */
  lemma OverlappingSearches(mode: Mode, s: SearchState, q: string, message: string, status: int,
                            payload: seq<Game>, status': int)
    requires !Blank(q)
    ensures var failed := Settle(Responded(ServiceResponse(false, message, None, status)));
            var found := Settle(Responded(ServiceResponse(true, "", Some(payload), status')));
            var mid := Replay(mode, s, [Search(q), Search(q), failed]);
            var r := Replay(mode, s, [Search(q), Search(q), failed, found]);
            var shown := MessageOr(message, DefaultFailure(mode));
            && !mid.isLoading
            && r.results == payload && !r.isLoading && r.error == Some(shown)
            && GameList.SelectView(r.results, r.isLoading, r.hasSearched, r.error, mode)
               == GameList.ErrorPanel(shown)
  {
    var failed := Settle(Responded(ServiceResponse(false, message, None, status)));
    var found := Settle(Responded(ServiceResponse(true, "", Some(payload), status')));
    ReplayFour(mode, s, Search(q), Search(q), failed, found);
    ReplayThree(mode, s, Search(q), Search(q), failed);
    FailureTextsNonEmpty(mode);
  }

  /** The connection messages are told apart from the server's own rejections when the
      server sends no message, in either session, and the two sessions' texts of each
      kind differ: the four texts are pairwise different. */
  lemma FailureTextsDistinct(mode: Mode, s: SearchState)
    ensures forall m: Mode, m': Mode :: DefaultFailure(m) != ConnectFailure(m')
    ensures Rejected(mode, s, "").error != Disconnected(mode, s).error
    ensures DefaultFailure(Meili) != DefaultFailure(Google)
    ensures ConnectFailure(Meili) != ConnectFailure(Google)
  {
    forall m: Mode, m': Mode ensures DefaultFailure(m) != ConnectFailure(m') {
      assert |DefaultFailure(m)| < 21 < |ConnectFailure(m')|;
    }
    assert DefaultFailure(Meili)[0] != DefaultFailure(Google)[0];
    assert |ConnectFailure(Meili)| != |ConnectFailure(Google)|;
  }

  /** One search session: the fields of `SearchState`, kept by the page and replaced,
      field by field, by the handlers. */
  class Session {
    const mode: Mode
    var query: string
    var results: seq<Game>
    var isLoading: bool
    var hasSearched: bool
    var error: Option<string>

    /** The session as the `SearchState` record it stands for. */
    function State(): SearchState
      reads this
    {
      SearchState(query, results, isLoading, hasSearched, error)
    }

    constructor (mode: Mode)
      ensures this.mode == mode && State() == InitialSearchState && Consistent(State())
    {
      this.mode := mode;
      query, results, isLoading, hasSearched, error := "", [], false, false, None;
    }

    /** The search bar's `onChange`: only the query changes. */
    method Edit(value: string)
      modifies this
      ensures query == value
      ensures results == old(results) && isLoading == old(isLoading)
      ensures hasSearched == old(hasSearched) && error == old(error)
      ensures State() == Edited(old(State()), value)
    {
      query := value;
    }

    /** The synchronous step before the request: loading, no error, searched. The query
        and the previous results stay. */
    method Begin()
      modifies this
      ensures isLoading && error == None && hasSearched
      ensures query == old(query) && results == old(results)
      ensures State() == Begun(old(State()))
    {
      isLoading, error, hasSearched := true, None, true;
    }

    /** The search handler up to its `await`, run with the query it closed over. A blank
        query returns before anything happens; any other begins the search and sends
        the query as it is, untrimmed. */
    method Search(captured: string) returns (request: Option<SearchRequest>)
      modifies this
      ensures Blank(captured) ==> request == None && State() == old(State())
      ensures !Blank(captured) ==> request == Some(SearchRequest(mode, captured))
      ensures State() == Step(mode, old(State()), Event.Search(captured))
    {
      if Blank(captured) {
        return None;
      }
      Begin();
      request := Some(SearchRequest(mode, captured));
    }

    /** A response with `success` set: its payload, or no results for a null one. The
        error, the query and `hasSearched` are left as they are. */
    method CompleteSuccess(payload: Option<seq<Game>>)
      modifies this
      ensures results == payload.GetOr([]) && !isLoading
      ensures payload.None? ==> results == []
      ensures error == old(error) && query == old(query) && hasSearched == old(hasSearched)
      ensures State() == Succeeded(old(State()), payload)
    {
      results, isLoading := payload.GetOr([]), false;
    }

    /** A response without `success`: the server's message, or the session's default
        when the message is empty; no results. */
    method CompleteFailure(message: string)
      modifies this
      ensures error == Some(if message != "" then message else DefaultFailure(mode))
      ensures results == [] && !isLoading
      ensures query == old(query) && hasSearched == old(hasSearched)
      ensures State() == Rejected(mode, old(State()), message)
    {
      error, results, isLoading := Some(MessageOr(message, DefaultFailure(mode))), [], false;
    }

    /** The request threw: the session's fixed connection message; no results. */
    method CompleteTransportError()
      modifies this
      ensures error == Some(ConnectFailure(mode)) && results == [] && !isLoading
      ensures query == old(query) && hasSearched == old(hasSearched)
      ensures State() == Disconnected(mode, old(State()))
    {
      error, results, isLoading := Some(ConnectFailure(mode)), [], false;
    }

    /** The search handler after its `await`: the `try`/`catch` and the test of
        `response.success`. */
    method Settle(outcome: Fetched<seq<Game>>)
      modifies this
      ensures State() == Settled(mode, old(State()), outcome)
    {
      match outcome
      case Responded(r) =>
        if r.success {
          CompleteSuccess(r.responseObject);
        } else {
          CompleteFailure(r.message);
        }
      case TransportError =>
        CompleteTransportError();
    }
  }

  /** A notification toast. */
  datatype Notice = SuccessNotice(text: string) | ErrorNotice(text: string)

  /** The toast the sync handler raises for the outcome of its request. */
  function SyncNotice(outcome: Fetched<()>): (n: Notice)
    ensures n.SuccessNotice? <==> outcome.Responded? && outcome.response.success
    ensures n.text != ""
    ensures outcome.Responded? && outcome.response.message != "" ==> n.text == outcome.response.message
    ensures outcome.Responded? && outcome.response.message == "" ==>
              n.text == (if outcome.response.success then "Database synced successfully"
                         else "Failed to sync database")
    ensures outcome.TransportError? ==> n.text == "Failed to connect to server"
  {
    match outcome
    case Responded(r) =>
      if r.success then SuccessNotice(MessageOr(r.message, "Database synced successfully"))
      else ErrorNotice(MessageOr(r.message, "Failed to sync database"))
    case TransportError => ErrorNotice("Failed to connect to server")
  }

  /** The index session as the sync handler closed over it when it was called. */
  datatype SyncTicket = SyncTicket(hasSearched: bool, query: string)

  /** The condition under which a finished sync re-runs the index search. */
  predicate RefreshesAfterSync(ticket: SyncTicket, outcome: Fetched<()>) {
    outcome.Responded? && outcome.response.success && ticket.hasSearched && !Blank(ticket.query)
  }

  /** The page: both sessions, the sync flag, and the toasts raised so far. */
  class Home {
    const meili: Session
    const google: Session
    var isSyncing: bool
    var notices: seq<Notice>

    ghost predicate Valid() {
      meili != google && meili.mode == Meili && google.mode == Google
    }

    constructor ()
      ensures Valid() && fresh(meili) && fresh(google)
      ensures meili.State() == InitialSearchState && google.State() == InitialSearchState
      ensures !isSyncing && notices == []
    {
      meili := new Session(Meili);
      google := new Session(Google);
      isSyncing, notices := false, [];
    }

    function SessionOf(mode: Mode): Session {
      if mode == Meili then meili else google
    }

    /** The `onChange` of one tab's search bar; the other session is left alone. */
    method Edit(mode: Mode, value: string)
      requires Valid()
      modifies SessionOf(mode)
      ensures SessionOf(mode).State() == Edited(old(SessionOf(mode).State()), value)
      ensures unchanged(SessionOf(if mode == Meili then Google else Meili))
    {
      SessionOf(mode).Edit(value);
    }

    /** `handleMeiliSearch` or `handleGoogleSearch` up to its `await`, on the session's
        current query; the other session is left alone. */
    method Search(mode: Mode) returns (request: Option<SearchRequest>)
      requires Valid()
      modifies SessionOf(mode)
      ensures var q := old(SessionOf(mode).query);
              request == (if Blank(q) then None else Some(SearchRequest(mode, q)))
      ensures SessionOf(mode).State() == Step(mode, old(SessionOf(mode).State()), Event.Search(old(SessionOf(mode).query)))
      ensures unchanged(SessionOf(if mode == Meili then Google else Meili)) && unchanged(this)
    {
      var session := SessionOf(mode);
      assert session != SessionOf(if mode == Meili then Google else Meili);
      var q := session.query;
      request := session.Search(q);
      assert session.State() == Step(mode, old(session.State()), Event.Search(q));
    }

    /** `handleSync` up to its `await`: the flag goes up and the handler keeps the index
        session's `hasSearched` and query as they are now. */
    method BeginSync() returns (ticket: SyncTicket)
      modifies this
      ensures isSyncing && notices == old(notices)
      ensures ticket == SyncTicket(meili.hasSearched, meili.query)
    {
      isSyncing := true;
      ticket := SyncTicket(meili.hasSearched, meili.query);
    }

    /** `handleSync` after its `await`: one toast for the outcome; after a success, the
        index search re-run with the kept query if the kept state had searched and that
        query is not blank; and the flag down on every path. The web session is never
        touched. */
    method CompleteSync(ticket: SyncTicket, outcome: Fetched<()>) returns (refresh: Option<SearchRequest>)
      requires Valid()
      modifies this, meili
      ensures !isSyncing
      ensures notices == old(notices) + [SyncNotice(outcome)]
      ensures refresh.Some? <==> RefreshesAfterSync(ticket, outcome)
      ensures refresh.Some? ==> refresh.value == SearchRequest(Meili, ticket.query)
                                && meili.State() == Begun(old(meili.State()))
      ensures refresh.None? ==> meili.State() == old(meili.State())
      ensures unchanged(google)
    {
      notices := notices + [SyncNotice(outcome)];
      refresh := None;
      if outcome.Responded? && outcome.response.success && ticket.hasSearched && !Blank(ticket.query) {
        refresh := meili.Search(ticket.query);
      }
      isSyncing := false;
    }
  }
}
