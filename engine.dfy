/**
 * `SearchEngine`: the dictionary of sessions, the fetch loop that tops up a
 * session's pool, and the two pagination entry points. The language model's
 * answer and the search provider are parameters of the calls that use them;
 * the session id digest is a parameter of the engine.
 */
module Engine {
  import opened Wrappers
  import opened Upstream
  import opened QueryParsing
  import opened Aggregation
  import opened Paging
  import opened Sessions

  /** Why a facade call fails. */
  datatype EngineFailure =
    | QueryGenerationFailed(reason: string)
    | SearchFailed(cause: UpstreamFailure)
    | SessionNotFound

  /** The part of a response the engine computes: the page, its pagination block, and the session and query details. */
  datatype Page = Page(
    results: seq<Item>,
    pagination: PageInfo,
    sessionId: string,
    isExhausted: bool,
    originalPrompt: string,
    generatedQueries: seq<string>,
    queryPositions: map<string, nat>)

  /**
   * What `search_with_offset` does to a session's state before it cuts the
   * page: a new session is first primed for 10 items past the page, then
   * either kind of session is topped up if it is still short.
   */
  function Prepare(provider: Provider, queries: seq<string>, st: SessionState, required: int, isNew: bool): Pass
    requires Tracks(st, queries)
  {
    if !isNew then TopUp(provider, queries, st, required)
    else
      var primed := Fetch(provider, queries, st, required + ReadAhead);
      if primed.failure.Some? then primed
      else
        FetchExtends(provider, queries, st, required + ReadAhead);
        var topped := TopUp(provider, queries, primed.state, required);
        Pass(topped.state, topped.needed, primed.calls + topped.calls, topped.failure)
  }

  /** The fetches before a page only extend the session: the pool grows at its end by links it did not hold, and no cursor moves back. */
  lemma PrepareExtends(provider: Provider, queries: seq<string>, st: SessionState, required: int, isNew: bool)
    requires Tracks(st, queries)
    ensures var p := Prepare(provider, queries, st, required, isNew);
      Extends(st, p.state) && AddsFresh(st, p.state)
  {
    if !isNew {
      if NeedsMore(st, required) {
        FetchExtends(provider, queries, st, required + ReadAhead);
      }
    } else {
      var primed := Fetch(provider, queries, st, required + ReadAhead);
      FetchExtends(provider, queries, st, required + ReadAhead);
      if primed.failure.None? && NeedsMore(primed.state, required) {
        FetchExtends(provider, queries, primed.state, required + ReadAhead);
        ExtendsTrans(st, primed.state, Fetch(provider, queries, primed.state, required + ReadAhead).state);
      }
    }
  }

  /** When the provider never repeats a link within a page, no link appears twice in a session's pool. */
  lemma PrepareDistinct(provider: Provider, queries: seq<string>, st: SessionState, required: int, isNew: bool)
    requires Tracks(st, queries)
    requires DistinctBatches(provider) && DistinctLinks(st.results)
    ensures DistinctLinks(Prepare(provider, queries, st, required, isNew).state.results)
  {
    if !isNew {
      if NeedsMore(st, required) {
        FetchDistinct(provider, queries, st, required + ReadAhead);
      }
    } else {
      var primed := Fetch(provider, queries, st, required + ReadAhead);
      FetchDistinct(provider, queries, st, required + ReadAhead);
      if primed.failure.None? && NeedsMore(primed.state, required) {
        FetchExtends(provider, queries, st, required + ReadAhead);
        FetchDistinct(provider, queries, primed.state, required + ReadAhead);
      }
    }
  }

  /**
   * When the provider returns at most the count it is asked for, a new
   * session serving the page that ends at `required` holds at most 10 items
   * past it, and every cursor stays below 110.
   */
  lemma NewSessionBounded(provider: Provider, queries: seq<string>, required: int)
    requires Honest(provider)
    ensures var p := Prepare(provider, queries, Initial(queries), required, true);
      && |p.state.results| <= Max(0, required + ReadAhead)
      && CursorsBelow(p.state, MaxStart + MaxBatch)
  {
    var st := Initial(queries);
    var primed := Fetch(provider, queries, st, required + ReadAhead);
    FetchHonest(provider, queries, st, required + ReadAhead);
    if primed.failure.None? && NeedsMore(primed.state, required) {
      FetchExtends(provider, queries, st, required + ReadAhead);
      FetchHonest(provider, queries, primed.state, required + ReadAhead);
    }
  }

  /**
   * Serving a page again before new data arrives is idempotent: when the pool
   * already covers the page, or the session is exhausted, the fetches before
   * an existing session's page make no call and change nothing, whatever the
   * provider, so the repeated call returns the same page.
   */
  lemma RepeatedPageIdempotent(provider: Provider, id: string, prompt: string, queries: seq<string>, st: SessionState,
                               offset: nat, limit: nat)
    requires Tracks(st, queries)
    requires offset + limit <= |st.results| || st.exhausted
    ensures var p := Prepare(provider, queries, st, offset + limit, false);
      && p.state == st && p.calls == [] && p.failure.None?
      && PageOf(id, prompt, queries, p.state, offset, limit) == PageOf(id, prompt, queries, st, offset, limit)
  {
    TopUpSpec(provider, queries, st, offset + limit);
  }

  /** The response `search_with_offset` and `get_more_results` build for the page at `offset` of a session in state `st`. */
  function PageOf(id: string, prompt: string, queries: seq<string>, st: SessionState, offset: nat, limit: nat): Page
  {
    var results := Window(st.results, offset, limit);
    Page(results, PageInfoOf(offset, |results|, |st.results|, st.exhausted), id, st.exhausted, prompt, queries, st.positions)
  }

  /**
   * What a facade call leaves behind for a session that was in state `st`
   * with read cursor `cursor`: the state the fetches reach, and either the
   * search failure with the cursor where it was, or the page at `offset`
   * with the cursor just past it.
   */
  predicate Served(provider: Provider, session: Session, st: SessionState, cursor: nat, offset: nat, limit: nat, isNew: bool,
                   r: Result<Page, EngineFailure>)
    reads session
  {
    && Tracks(st, session.queries)
    && var p := Prepare(provider, session.queries, st, offset + limit, isNew);
       && session.State() == p.state
       && (p.failure.Some? ==> r == Failure(SearchFailed(p.failure.value)) && session.lastReturnedOffset == cursor)
       && (p.failure.None? ==>
             && r == Success(PageOf(session.id, session.originalPrompt, session.queries, p.state, offset, limit))
             && session.lastReturnedOffset == offset + |r.value.results|)
  }

  class SearchEngine {
    var sessions: map<string, Session>
    /** Stands for the MD5 hex digest of the session key. */
    const digest: string -> string

    /** Every session is stored under its own id and tracks all its queries. */
    ghost predicate Valid()
      reads this, sessions.Values
    {
      forall id :: id in sessions ==> sessions[id].id == id && sessions[id].Valid()
    }

    constructor (digest: string -> string)
      ensures Valid() && sessions == map[] && this.digest == digest
    {
      sessions := map[];
      this.digest := digest;
    }

    /** `generate_session_id`: the digest of user, prompt and calendar day joined by underscores. */
    function SessionId(userId: string, prompt: string, day: string): string
    {
      digest(userId + "_" + prompt + "_" + day)
    }

    /** `fetch_more_results(session, target_count)` */
    method FetchMoreResults(session: Session, target: int, provider: Provider) returns (failure: Option<UpstreamFailure>)
      requires session.Valid()
      modifies session
      ensures session.Valid()
      ensures session.State() == Fetch(provider, session.queries, old(session.State()), target).state
      ensures failure == Fetch(provider, session.queries, old(session.State()), target).failure
      ensures session.lastReturnedOffset == old(session.lastReturnedOffset)
    {
      var currentCount := |session.results|;
      if currentCount >= target || session.isExhausted {
        return None;
      }
      var needed;
      ghost var calls;
      needed, failure, calls := SweepQueries(session, target - currentCount, provider);
      if failure.None? && |session.results| == currentCount {
        session.isExhausted := true;
      }
    }

    /** The loop of `fetch_more_results`: each query in turn while results are still needed. */
    method SweepQueries(session: Session, needed: int, provider: Provider)
      returns (needed': int, failure: Option<UpstreamFailure>, ghost calls: seq<Call>)
      requires session.Valid()
      modifies session
      ensures session.Valid()
      ensures Sweep(provider, session.queries, 0, old(session.State()), needed, [])
           == Pass(session.State(), needed', calls, failure)
      ensures session.lastReturnedOffset == old(session.lastReturnedOffset)
    {
      ghost var start := session.State();
      needed', failure, calls := needed, None, [];
      var i := 0;
      while i < |session.queries|
        invariant 0 <= i <= |session.queries|
        invariant session.Valid()
        invariant session.lastReturnedOffset == old(session.lastReturnedOffset)
        invariant failure.None?
        invariant Sweep(provider, session.queries, i, session.State(), needed', calls)
               == Sweep(provider, session.queries, 0, start, needed, [])
        decreases |session.queries| - i
      {
        if needed' <= 0 {
          break;
        }
        ghost var before, neededBefore, callsBefore := session.State(), needed', calls;
        ghost var s := Visit(provider, session.queries[i], before, neededBefore);
        needed', failure := VisitQuery(session, session.queries[i], needed', provider);
        calls := calls + CallList(s.call);
        if failure.Some? {
          assert Sweep(provider, session.queries, i, before, neededBefore, callsBefore)
              == Pass(session.State(), needed', calls, failure);
          return;
        }
        i := i + 1;
      }
    }

    /** One iteration of the loop of `fetch_more_results`, for one query while `needed > 0`. */
    method VisitQuery(session: Session, query: string, needed: int, provider: Provider) returns (needed': int, failure: Option<UpstreamFailure>)
      requires session.Valid() && query in session.queries && needed > 0
      modifies session
      ensures session.Valid()
      ensures var s := Visit(provider, query, old(session.State()), needed);
        session.State() == s.state && needed' == s.needed && failure == s.failure
      ensures session.lastReturnedOffset == old(session.lastReturnedOffset)
    {
      needed' := needed;
      var currentPosition := session.queryPositions[query];
      if currentPosition >= MaxStart {
        return needed', None;
      }
      var batchSize := Min(MaxBatch, needed);
      var response := SearchApi(provider, query, currentPosition, batchSize);
      if response.Failure? {
        return needed', Some(response.error);
      }
      var newResults := response.value;
      if newResults == [] {
        return needed', None;
      }
      var filtered := FreshItems(newResults, Links(session.results));
      session.AddResults(filtered, query, |newResults|);
      needed' := needed - |filtered|;
      failure := None;
    }

    /** `needs_more_results(required)` and, when it holds, `fetch_more_results(session, required + 10)`. */
    method TopUpSession(session: Session, required: int, provider: Provider) returns (failure: Option<UpstreamFailure>)
      requires session.Valid()
      modifies session
      ensures session.Valid()
      ensures session.State() == TopUp(provider, session.queries, old(session.State()), required).state
      ensures failure == TopUp(provider, session.queries, old(session.State()), required).failure
      ensures session.lastReturnedOffset == old(session.lastReturnedOffset)
    {
      failure := None;
      if |session.results| < required && !session.isExhausted {
        failure := FetchMoreResults(session, required + ReadAhead, provider);
      }
    }

    /** `get_results(offset, limit)`, the move of the read cursor past it, and the page built from both. */
    method ServePage(session: Session, offset: nat, limit: nat) returns (page: Page)
      modifies session
      ensures session.State() == old(session.State())
      ensures page == PageOf(session.id, session.originalPrompt, session.queries, session.State(), offset, limit)
      ensures session.lastReturnedOffset == offset + |page.results|
    {
      var results := Window(session.results, offset, limit);
      session.lastReturnedOffset := offset + |results|;
      page := Page(results, PageInfoOf(offset, |results|, |session.results|, session.isExhausted),
                   session.id, session.isExhausted, session.originalPrompt, session.queries, session.queryPositions);
    }

    /** `search_with_offset(prompt, user_id, offset, num_results)` on the calendar day `day`, with the language model's answer as a parameter. */
    method SearchWithOffset(prompt: string, userId: string, day: string, offset: nat, numResults: nat,
                            answer: Result<string, string>, provider: Provider)
      returns (r: Result<Page, EngineFailure>)
      requires Valid()
      modifies this, sessions.Values
      ensures Valid()
      ensures forall other :: other in old(sessions.Values) && other.id != SessionId(userId, prompt, day) ==> unchanged(other)
      ensures var id := SessionId(userId, prompt, day);
        id !in old(sessions) && answer.Failure? ==>
          r == Failure(QueryGenerationFailed(answer.error)) && sessions == old(sessions)
      ensures var id := SessionId(userId, prompt, day);
        id in old(sessions) ==> id in sessions && sessions[id] == old(sessions[id])
      ensures var id := SessionId(userId, prompt, day);
        id !in old(sessions) && answer.Success? ==>
          && id in sessions && fresh(sessions[id])
          && sessions[id].originalPrompt == prompt
          && sessions[id].queries == ParseQueries(answer.value, prompt)
      ensures var id := SessionId(userId, prompt, day);
        id in old(sessions) || answer.Success? ==>
          && id in sessions && sessions == old(sessions)[id := sessions[id]]
          && if id in old(sessions)
             then Served(provider, sessions[id], old(sessions[id].State()), old(sessions[id].lastReturnedOffset), offset, numResults, false, r)
             else Served(provider, sessions[id], Initial(sessions[id].queries), 0, offset, numResults, true, r)
    {
      var id := SessionId(userId, prompt, day);
      if id in sessions {
        r := SearchExisting(id, offset, numResults, provider);
      } else if answer.Failure? {
        r := Failure(QueryGenerationFailed(answer.error));
      } else {
        var queries := ExtractQueries(answer.value, prompt);
        r := SearchNew(id, prompt, queries, offset, numResults, provider);
      }
    }

    /** `search_with_offset` for a session the engine already holds. */
    method SearchExisting(id: string, offset: nat, numResults: nat, provider: Provider) returns (r: Result<Page, EngineFailure>)
      requires Valid() && id in sessions
      modifies sessions[id]
      ensures Valid()
      ensures Served(provider, sessions[id], old(sessions[id].State()), old(sessions[id].lastReturnedOffset), offset, numResults, false, r)
    {
      var session := sessions[id];
      assert session.Valid();
      r := Serve(session, offset, numResults, false, provider);
    }

    /** `search_with_offset` for a prompt not seen today: a new session for the generated queries, then its first page. */
    method SearchNew(id: string, prompt: string, queries: seq<string>, offset: nat, numResults: nat, provider: Provider)
      returns (r: Result<Page, EngineFailure>)
      requires Valid() && id !in sessions
      modifies this
      ensures Valid()
      ensures id in sessions && sessions == old(sessions)[id := sessions[id]] && fresh(sessions[id])
      ensures sessions[id].originalPrompt == prompt && sessions[id].queries == queries
      ensures Served(provider, sessions[id], Initial(queries), 0, offset, numResults, true, r)
    {
      var session := OpenSession(id, prompt, queries);
      r := Serve(session, offset, numResults, true, provider);
    }

    /** The part of both facade methods after the session is found: the fetches, then the page or the search failure. */
    method Serve(session: Session, offset: nat, numResults: nat, isNew: bool, provider: Provider) returns (r: Result<Page, EngineFailure>)
      requires session.Valid()
      modifies session
      ensures session.Valid()
      ensures Served(provider, session, old(session.State()), old(session.lastReturnedOffset), offset, numResults, isNew, r)
    {
      var failure := Refresh(session, offset + numResults, isNew, provider);
      if failure.Some? {
        return Failure(SearchFailed(failure.value));
      }
      var page := ServePage(session, offset, numResults);
      return Success(page);
    }

    /** The new-session branch of `search_with_offset`: a fresh session for `queries`, stored under `id`. */
    method OpenSession(id: string, prompt: string, queries: seq<string>) returns (session: Session)
      requires Valid() && id !in sessions
      modifies this
      ensures Valid()
      ensures fresh(session) && sessions == old(sessions)[id := session] && session.Valid()
      ensures session.id == id && session.originalPrompt == prompt && session.queries == queries
      ensures session.State() == Initial(queries) && session.lastReturnedOffset == 0
    {
      session := new Session(id, prompt, queries);
      sessions := sessions[id := session];
    }

    /**
     * The fetches `search_with_offset` runs before it cuts the page: for a new
     * session `fetch_more_results(session, offset + num_results + 10)`, then
     * for either kind the top-up.
     */
    method Refresh(session: Session, required: int, isNew: bool, provider: Provider) returns (failure: Option<UpstreamFailure>)
      requires session.Valid()
      modifies session
      ensures session.Valid()
      ensures session.State() == Prepare(provider, session.queries, old(session.State()), required, isNew).state
      ensures failure == Prepare(provider, session.queries, old(session.State()), required, isNew).failure
      ensures session.lastReturnedOffset == old(session.lastReturnedOffset)
    {
      if isNew {
        failure := FetchMoreResults(session, required + ReadAhead, provider);
        if failure.Some? {
          return;
        }
      }
      failure := TopUpSession(session, required, provider);
    }

    /** `get_more_results(session_id, num_results)`: the next page from the session's read cursor. */
    method GetMoreResults(sessionId: string, numResults: nat, provider: Provider) returns (r: Result<Page, EngineFailure>)
      requires Valid()
      modifies sessions.Values
      ensures Valid()
      ensures sessionId !in sessions ==> r == Failure(SessionNotFound)
      ensures forall k :: k in sessions && k != sessionId ==> unchanged(sessions[k])
      ensures sessionId in sessions ==>
        var session := sessions[sessionId];
        var from := old(session.lastReturnedOffset);
        var p := TopUp(provider, session.queries, old(session.State()), from + numResults);
        && session.State() == p.state
        && (p.failure.Some? ==> r == Failure(SearchFailed(p.failure.value)) && session.lastReturnedOffset == from)
        && (p.failure.None? ==>
              && r == Success(PageOf(sessionId, session.originalPrompt, session.queries, p.state, from, numResults))
              && session.lastReturnedOffset == from + |r.value.results|)
    {
      if sessionId !in sessions {
        return Failure(SessionNotFound);
      }
      var session := sessions[sessionId];
      assert session.Valid();
      var currentOffset := session.lastReturnedOffset;
      r := Serve(session, currentOffset, numResults, false, provider);
    }
  }
}
