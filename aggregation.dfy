/**
 * The result-aggregation pass of a search session, on values: one visit of a
 * query (`Visit`), the round-robin over all queries (`Sweep`) and the whole
 * `fetch_more_results` step with its entry guard and exhaustion rule (`Fetch`).
 * The session object of the engine is specified by these functions.
 */
module Aggregation {
  import opened Wrappers
  import opened Upstream

  /** A query whose cursor has reached this value is not requested again. */
  const MaxStart := 100

  /** The part of a session that a fetch reads and writes. */
  datatype SessionState = SessionState(
    results: seq<Item>,
    positions: map<string, nat>,
    apiCalls: nat,
    exhausted: bool)

  /** The arguments of one `call_google_search_api` call: query, start and requested count. */
  datatype Call = Call(query: string, start: nat, num: int)

  /** What visiting one query does: the new state and `needed`, the call made, the failure raised. */
  datatype Step = Step(state: SessionState, needed: int, call: Option<Call>, failure: Option<UpstreamFailure>)

  /**
   * A pass over the queries: the final state, the value of `needed` when the
   * loop stopped (0 when no loop ran), every call made in order, and the
   * failure that ended it.
   */
  datatype Pass = Pass(state: SessionState, needed: int, calls: seq<Call>, failure: Option<UpstreamFailure>)

  /** A new session: empty pool, every query's cursor at 0, no calls, not exhausted. */
  function Initial(queries: seq<string>): (st: SessionState)
    ensures Tracks(st, queries)
  {
    SessionState([], map q | q in queries :: 0, 0, false)
  }

  /** Every query of the session has a cursor. */
  predicate Tracks(st: SessionState, queries: seq<string>)
  {
    forall q :: q in queries ==> q in st.positions
  }

  /** The links of the pool, `{r["link"] for r in session.results}`. */
  function Links(items: seq<Item>): set<string>
  {
    if |items| == 0 then {} else {items[0].link} + Links(items[1..])
  }

  /** The items of `batch` whose link is not in `existing`, in order. */
  function FreshItems(batch: seq<Item>, existing: set<string>): (r: seq<Item>)
    ensures |r| <= |batch|
  {
    if |batch| == 0 then []
    else (if batch[0].link in existing then [] else [batch[0]]) + FreshItems(batch[1..], existing)
  }

  /** `add_results`: extend the pool, advance the query's cursor by the fetched count, count the call. */
  function AddResults(st: SessionState, kept: seq<Item>, query: string, fetched: nat): (r: SessionState)
    requires query in st.positions
    ensures r.positions.Keys == st.positions.Keys
  {
    st.(results := st.results + kept,
        positions := st.positions[query := st.positions[query] + fetched],
        apiCalls := st.apiCalls + 1)
  }

  /** `needs_more_results` */
  predicate NeedsMore(st: SessionState, required: int)
  {
    |st.results| < required && !st.exhausted
  }

  /** One iteration of the loop of `fetch_more_results`, for a query while `needed > 0`. */
  function Visit(provider: Provider, query: string, st: SessionState, needed: int): (s: Step)
    requires query in st.positions
    ensures s.state.positions.Keys == st.positions.Keys
    ensures |s.state.results| + s.needed == |st.results| + needed
  {
    var position := st.positions[query];
    if position >= MaxStart then Step(st, needed, None, None)
    else
      var call := Call(query, position, Min(MaxBatch, needed));
      match SearchApi(provider, query, position, call.num)
      case Failure(e) => Step(st, needed, Some(call), Some(e))
      case Success(batch) =>
        if batch == [] then Step(st, needed, Some(call), None)
        else
          var kept := FreshItems(batch, Links(st.results));
          Step(AddResults(st, kept, query, |batch|), needed - |kept|, Some(call), None)
  }

  function CallList(call: Option<Call>): seq<Call>
  {
    if call.Some? then [call.value] else []
  }

  /**
   * The loop of `fetch_more_results` from the query at index `i`, with
   * `calls` the calls made so far; it stops once `needed <= 0` and ends at
   * the first failure, keeping what the earlier batches committed.
   */
  function Sweep(provider: Provider, queries: seq<string>, i: nat, st: SessionState, needed: int, calls: seq<Call>): Pass
    requires i <= |queries|
    requires Tracks(st, queries)
    decreases |queries| - i
  {
    if i == |queries| || needed <= 0 then Pass(st, needed, calls, None)
    else
      var s := Visit(provider, queries[i], st, needed);
      var calls' := calls + CallList(s.call);
      if s.failure.Some? then Pass(s.state, s.needed, calls', s.failure)
      else Sweep(provider, queries, i + 1, s.state, s.needed, calls')
  }

  /** `fetch_more_results(session, target_count)`: the pass, then the exhaustion rule. */
  function Fetch(provider: Provider, queries: seq<string>, st: SessionState, target: int): Pass
    requires Tracks(st, queries)
  {
    if |st.results| >= target || st.exhausted then Pass(st, 0, [], None)
    else
      var p := Sweep(provider, queries, 0, st, target - |st.results|, []);
      if p.failure.None? && |p.state.results| == |st.results| then p.(state := p.state.(exhausted := true))
      else p
  }

  /** `b` is `a` after more batches: the pool only grows at the end, cursors only advance, the flag is never cleared. */
  predicate Extends(a: SessionState, b: SessionState)
  {
    && a.results <= b.results
    && b.positions.Keys == a.positions.Keys
    && (forall k :: k in a.positions ==> a.positions[k] <= b.positions[k])
    && a.apiCalls <= b.apiCalls
    && (a.exhausted ==> b.exhausted)
  }

  /** Every item of `b` past the pool of `a` has a link that was not in the pool of `a`. */
  predicate AddsFresh(a: SessionState, b: SessionState)
  {
    forall j :: |a.results| <= j < |b.results| ==> b.results[j].link !in Links(a.results)
  }

  /** No two items of the pool share a link. */
  predicate DistinctLinks(items: seq<Item>)
  {
    forall i, j :: 0 <= i < j < |items| ==> items[i].link != items[j].link
  }

  /** The provider never returns two items with the same link in one response. */
  ghost predicate DistinctBatches(provider: Provider)
  {
    forall r: Request :: provider(r).Success? ==>
      forall i, j :: 0 <= i < j < |provider(r).value| ==> provider(r).value[i].link != provider(r).value[j].link
  }

  /** The provider never returns more items than a request for at least one item asks for. */
  ghost predicate Honest(provider: Provider)
  {
    forall r: Request :: 1 <= r.num && provider(r).Success? ==> |provider(r).value| <= r.num
  }

  /** Every cursor is below `bound`. */
  predicate CursorsBelow(st: SessionState, bound: int)
  {
    forall k :: k in st.positions ==> st.positions[k] < bound
  }

  lemma {:induction false} LinksOf(items: seq<Item>, i: nat)
    requires i < |items|
    ensures items[i].link in Links(items)
  {
    if i > 0 {
      LinksOf(items[1..], i - 1);
    }
  }

  /** A link is in the pool's link set exactly when some pooled item carries it. */
  lemma {:induction false} LinksMembers(items: seq<Item>, l: string)
    ensures l in Links(items) <==> exists i :: 0 <= i < |items| && items[i].link == l
  {
    if |items| > 0 {
      LinksMembers(items[1..], l);
      if l in Links(items[1..]) {
        var j :| 0 <= j < |items[1..]| && items[1..][j].link == l;
        assert items[j + 1].link == l;
      }
      if exists i :: 0 <= i < |items| && items[i].link == l {
        var i :| 0 <= i < |items| && items[i].link == l;
        if i > 0 {
          assert items[1..][i - 1].link == l;
        }
      }
    }
  }

  lemma {:induction false} LinksPrefix(a: seq<Item>, b: seq<Item>)
    requires a <= b
    ensures Links(a) <= Links(b)
  {
    if |a| > 0 {
      LinksPrefix(a[1..], b[1..]);
    }
  }

  lemma {:induction false} FreshItemsMembers(batch: seq<Item>, existing: set<string>, x: Item)
    ensures x in FreshItems(batch, existing) <==> x in batch && x.link !in existing
  {
    if |batch| > 0 {
      FreshItemsMembers(batch[1..], existing, x);
      assert batch == [batch[0]] + batch[1..];
    }
  }

  lemma HeadLinkNotInTail(batch: seq<Item>)
    requires |batch| > 0 && DistinctLinks(batch)
    ensures forall x :: x in batch[1..] ==> x.link != batch[0].link
  {
    forall x | x in batch[1..]
      ensures x.link != batch[0].link
    {
      var j :| 0 <= j < |batch[1..]| && batch[1..][j] == x;
      assert batch[j + 1] == x;
    }
  }

  lemma ConsDistinct(head: Item, tail: seq<Item>)
    requires DistinctLinks(tail)
    requires forall x :: x in tail ==> x.link != head.link
    ensures DistinctLinks([head] + tail)
  {
    var r := [head] + tail;
    forall i, j | 0 <= i < j < |r|
      ensures r[i].link != r[j].link
    {
      assert r[j] == tail[j - 1];
      if i > 0 {
        assert r[i] == tail[i - 1];
      }
    }
  }

  lemma {:induction false} FreshItemsDistinct(batch: seq<Item>, existing: set<string>)
    requires DistinctLinks(batch)
    ensures DistinctLinks(FreshItems(batch, existing))
  {
    if |batch| > 0 {
      var tail := FreshItems(batch[1..], existing);
      FreshItemsDistinct(batch[1..], existing);
      if batch[0].link !in existing {
        HeadLinkNotInTail(batch);
        forall x | x in tail
          ensures x.link != batch[0].link
        {
          FreshItemsMembers(batch[1..], existing, x);
        }
        ConsDistinct(batch[0], tail);
      }
    }
  }

  /** The items built from a response have the response's links, position by position. */
  lemma ApiDistinct(provider: Provider, query: string, start: int, num: int)
    requires DistinctBatches(provider)
    requires SearchApi(provider, query, start, num).Success?
    ensures DistinctLinks(SearchApi(provider, query, start, num).value)
  {
    var raw := provider(Request(query, start, Clamp(num))).value;
    var items := SearchApi(provider, query, start, num).value;
    assert items == ToItems(raw, start);
    forall i, j | 0 <= i < j < |items|
      ensures items[i].link != items[j].link
    {
      ToItemsAt(raw, start, i);
      ToItemsAt(raw, start, j);
    }
  }

  lemma ExtendsTrans(a: SessionState, b: SessionState, c: SessionState)
    requires Extends(a, b) && Extends(b, c)
    requires AddsFresh(a, b) && AddsFresh(b, c)
    ensures Extends(a, c) && AddsFresh(a, c)
  {
    LinksPrefix(a.results, b.results);
    forall j | |a.results| <= j < |c.results|
      ensures c.results[j].link !in Links(a.results)
    {
      if j < |b.results| {
        assert c.results[j] == b.results[j];
      }
    }
  }

  /** Visiting a query keeps the session's history: it only appends fresh items, advances cursors and counts calls. */
  lemma VisitExtends(provider: Provider, query: string, st: SessionState, needed: int)
    requires query in st.positions
    ensures var s := Visit(provider, query, st, needed);
      && Extends(st, s.state) && AddsFresh(st, s.state)
      && s.state.exhausted == st.exhausted
      && s.needed <= needed
  {
    var s := Visit(provider, query, st, needed);
    var position := st.positions[query];
    if position < MaxStart {
      var r := SearchApi(provider, query, position, Min(MaxBatch, needed));
      if r.Success? && r.value != [] {
        var kept := FreshItems(r.value, Links(st.results));
        assert s.state.results == st.results + kept;
        forall j | |st.results| <= j < |s.state.results|
          ensures s.state.results[j].link !in Links(st.results)
        {
          assert s.state.results[j] == kept[j - |st.results|];
          FreshItemsMembers(r.value, Links(st.results), s.state.results[j]);
        }
      }
    }
  }

  /**
   * A successful call appends every item of its page whose link was not in
   * the pool, and nothing else, in page order; `needed` drops by exactly the
   * number of items appended.
   */
  lemma VisitAppendsFresh(provider: Provider, query: string, st: SessionState, needed: int)
    requires query in st.positions
    ensures var s := Visit(provider, query, st, needed);
      s.call.Some? && s.failure.None? ==>
        var batch := SearchApi(provider, query, s.call.value.start, s.call.value.num).value;
        var added := s.state.results[|st.results|..];
        && st.results <= s.state.results
        && added == FreshItems(batch, Links(st.results))
        && (forall x :: x in batch && x.link !in Links(st.results) ==> x in added)
        && (forall x :: x in added ==> x in batch && x.link !in Links(st.results))
        && needed - s.needed == |added|
  {
    var s := Visit(provider, query, st, needed);
    if s.call.Some? && s.failure.None? {
      var batch := SearchApi(provider, query, s.call.value.start, s.call.value.num).value;
      var kept := FreshItems(batch, Links(st.results));
      if batch == [] {
        assert kept == [];
      }
      assert s.state.results == st.results + kept;
      var added := s.state.results[|st.results|..];
      assert added == kept;
      forall x | x in batch && x.link !in Links(st.results)
        ensures x in added
      {
        FreshItemsMembers(batch, Links(st.results), x);
      }
      forall x | x in added
        ensures x in batch && x.link !in Links(st.results)
      {
        FreshItemsMembers(batch, Links(st.results), x);
      }
    }
  }

  /** Visiting a query leaves every other query's cursor where it was. */
  lemma VisitOtherCursors(provider: Provider, query: string, st: SessionState, needed: int)
    requires query in st.positions
    ensures var s := Visit(provider, query, st, needed);
      forall k :: k in st.positions && k != query ==> s.state.positions[k] == st.positions[k]
  {
  }

  /**
   * Visiting a query advances its cursor by the number of items the provider
   * returned, before filtering; a skipped query, an empty response and a
   * failure leave it where it was.
   */
  lemma VisitCursor(provider: Provider, query: string, st: SessionState, needed: int)
    requires query in st.positions
    ensures var s := Visit(provider, query, st, needed);
      s.state.positions[query] == st.positions[query] +
        (if s.call.Some? && s.failure.None? then |SearchApi(provider, query, s.call.value.start, s.call.value.num).value| else 0)
  {
  }

  /** A query is requested exactly when its cursor is below 100, from its cursor, for `min(10, needed)` items. */
  lemma VisitCall(provider: Provider, query: string, st: SessionState, needed: int)
    requires query in st.positions
    ensures var s := Visit(provider, query, st, needed);
      && (s.call.Some? <==> st.positions[query] < MaxStart)
      && (s.call.Some? ==> s.call.value == Call(query, st.positions[query], Min(MaxBatch, needed)))
      && (s.failure.Some? ==> s.call.Some? && s.state == st && s.needed == needed)
  {
  }

  /** With an honest provider a visit made while `needed > 0` does not drive `needed` below 0. */
  lemma VisitHonest(provider: Provider, query: string, st: SessionState, needed: int)
    requires query in st.positions
    requires Honest(provider) && needed > 0
    ensures Visit(provider, query, st, needed).needed >= 0
  {
    var position := st.positions[query];
    if position < MaxStart {
      var num := Min(MaxBatch, needed);
      var response := provider(Request(query, position, Clamp(num)));
      if response.Success? {
        assert |response.value| <= Clamp(num) == num;
      }
    }
  }

  /** With an honest provider a cursor below 110 stays below 110: it only moves from below 100, by at most 10. */
  lemma VisitCursorBound(provider: Provider, query: string, st: SessionState, needed: int)
    requires query in st.positions
    requires Honest(provider) && CursorsBelow(st, MaxStart + MaxBatch)
    ensures CursorsBelow(Visit(provider, query, st, needed).state, MaxStart + MaxBatch)
  {
    var s := Visit(provider, query, st, needed);
    VisitOtherCursors(provider, query, st, needed);
    VisitCursor(provider, query, st, needed);
    var position := st.positions[query];
    if s.call.Some? && s.failure.None? {
      var num := s.call.value.num;
      assert s.call.value.start == position < MaxStart by {
        VisitCall(provider, query, st, needed);
      }
      var response := provider(Request(query, position, Clamp(num)));
      assert |response.value| <= Clamp(num) <= MaxBatch;
      assert |SearchApi(provider, query, position, num).value| == |response.value|;
    }
  }

  lemma AppendDistinct(a: seq<Item>, b: seq<Item>)
    requires DistinctLinks(a) && DistinctLinks(b)
    requires forall x :: x in b ==> x.link !in Links(a)
    ensures DistinctLinks(a + b)
  {
    var c := a + b;
    forall i, j | 0 <= i < j < |c|
      ensures c[i].link != c[j].link
    {
      if j >= |a| {
        assert c[j] == b[j - |a|] && c[j] in b;
        if i >= |a| {
          assert c[i] == b[i - |a|];
        } else {
          assert c[i] == a[i];
          LinksOf(a, i);
        }
      }
    }
  }

  /** When responses never repeat a link, a visit keeps the links of the pool distinct. */
  lemma VisitDistinct(provider: Provider, query: string, st: SessionState, needed: int)
    requires query in st.positions
    requires DistinctBatches(provider) && DistinctLinks(st.results)
    ensures DistinctLinks(Visit(provider, query, st, needed).state.results)
  {
    var position := st.positions[query];
    if position < MaxStart {
      var r := SearchApi(provider, query, position, Min(MaxBatch, needed));
      if r.Success? && r.value != [] {
        ApiDistinct(provider, query, position, Min(MaxBatch, needed));
        var kept := FreshItems(r.value, Links(st.results));
        FreshItemsDistinct(r.value, Links(st.results));
        forall x | x in kept
          ensures x.link !in Links(st.results)
        {
          FreshItemsMembers(r.value, Links(st.results), x);
        }
        AppendDistinct(st.results, kept);
      }
    }
  }

  /** A pass only appends items whose links were not in the pool at its start, and never clears the flag. */
  lemma {:induction false} SweepExtends(provider: Provider, queries: seq<string>, i: nat, st: SessionState, needed: int, calls: seq<Call>)
    requires i <= |queries| && Tracks(st, queries)
    ensures var r := Sweep(provider, queries, i, st, needed, calls);
      && Extends(st, r.state) && AddsFresh(st, r.state)
      && r.state.exhausted == st.exhausted
    decreases |queries| - i
  {
    if i < |queries| && needed > 0 {
      var s := Visit(provider, queries[i], st, needed);
      VisitExtends(provider, queries[i], st, needed);
      if s.failure.None? {
        SweepExtends(provider, queries, i + 1, s.state, s.needed, calls + CallList(s.call));
        ExtendsTrans(st, s.state, Sweep(provider, queries, i, st, needed, calls).state);
      }
    }
  }

  /** A call is for one of `queries`, from a cursor below 100, for between 1 and 10 items and at most `needed`. */
  predicate CallWithin(c: Call, queries: seq<string>, needed: int)
  {
    && c.query in queries
    && c.start < MaxStart
    && 1 <= c.num <= MaxBatch
    && c.num <= needed
  }

  /** The queries from index `i + 1` on are among those from `i` on, and so is the one at `i`. */
  lemma SuffixMembers(queries: seq<string>, i: nat)
    requires i < |queries|
    ensures queries[i] in queries[i..]
    ensures forall k :: k in queries[i + 1..] ==> k in queries[i..]
  {
    assert queries[i..][0] == queries[i];
    forall k | k in queries[i + 1..]
      ensures k in queries[i..]
    {
      var m :| 0 <= m < |queries[i + 1..]| && queries[i + 1..][m] == k;
      assert queries[i..][m + 1] == k;
    }
  }

  /** A pass keeps the calls made before it and appends its own after them. */
  lemma {:induction false} SweepCallsPrefix(provider: Provider, queries: seq<string>, i: nat, st: SessionState, needed: int, calls: seq<Call>)
    requires i <= |queries| && Tracks(st, queries)
    ensures var r := Sweep(provider, queries, i, st, needed, calls);
      |calls| <= |r.calls| && r.calls[..|calls|] == calls
    decreases |queries| - i
  {
    if i < |queries| && needed > 0 {
      var s := Visit(provider, queries[i], st, needed);
      var calls' := calls + CallList(s.call);
      if s.failure.None? {
        SweepCallsPrefix(provider, queries, i + 1, s.state, s.needed, calls');
        var r := Sweep(provider, queries, i + 1, s.state, s.needed, calls');
        assert r.calls[..|calls|] == r.calls[..|calls'|][..|calls|];
      }
    }
  }

  /** Each call a pass makes is within bounds for the queries it visits and the items it still needs. */
  lemma {:induction false} SweepCalls(provider: Provider, queries: seq<string>, i: nat, st: SessionState, needed: int, calls: seq<Call>)
    requires i <= |queries| && Tracks(st, queries)
    ensures var r := Sweep(provider, queries, i, st, needed, calls);
      forall j :: |calls| <= j < |r.calls| ==> CallWithin(r.calls[j], queries[i..], needed)
    decreases |queries| - i
  {
    if i < |queries| && needed > 0 {
      var s := Visit(provider, queries[i], st, needed);
      VisitExtends(provider, queries[i], st, needed);
      VisitCall(provider, queries[i], st, needed);
      var calls' := calls + CallList(s.call);
      SuffixMembers(queries, i);
      if s.failure.Some? {
        assert Sweep(provider, queries, i, st, needed, calls) == Pass(s.state, s.needed, calls', s.failure);
      } else {
        SweepStep(provider, queries, i, st, needed, calls);
        SweepCalls(provider, queries, i + 1, s.state, s.needed, calls');
        SweepCallsPrefix(provider, queries, i + 1, s.state, s.needed, calls');
        var r := Sweep(provider, queries, i + 1, s.state, s.needed, calls');
        forall j | |calls| <= j < |r.calls|
          ensures CallWithin(r.calls[j], queries[i..], needed)
        {
          if j >= |calls'| {
            assert CallWithin(r.calls[j], queries[i + 1..], s.needed);
          } else {
            assert s.call.Some? && j == |calls|;
            assert calls'[j] == s.call.value;
            assert r.calls[j] == r.calls[..|calls'|][j];
          }
        }
      }
    }
  }

  /** A pass moves no cursor of a query it does not visit. */
  lemma {:induction false} SweepUntouched(provider: Provider, queries: seq<string>, i: nat, st: SessionState, needed: int, calls: seq<Call>)
    requires i <= |queries| && Tracks(st, queries)
    ensures var r := Sweep(provider, queries, i, st, needed, calls);
      forall k :: k in st.positions && k !in queries[i..] ==> k in r.state.positions && r.state.positions[k] == st.positions[k]
    decreases |queries| - i
  {
    if i < |queries| && needed > 0 {
      var s := Visit(provider, queries[i], st, needed);
      VisitOtherCursors(provider, queries[i], st, needed);
      SuffixMembers(queries, i);
      if s.failure.None? {
        SweepUntouched(provider, queries, i + 1, s.state, s.needed, calls + CallList(s.call));
      }
    }
  }

  /**
   * A pass that fails ends at a call, and that call's query keeps the cursor
   * it was requested from: the failing batch commits nothing.
   */
  lemma {:induction false} SweepAbort(provider: Provider, queries: seq<string>, i: nat, st: SessionState, needed: int, calls: seq<Call>)
    requires i <= |queries| && Tracks(st, queries)
    ensures var r := Sweep(provider, queries, i, st, needed, calls);
      r.failure.Some? ==>
        && |r.calls| > |calls|
        && r.calls[|r.calls| - 1].query in r.state.positions
        && r.state.positions[r.calls[|r.calls| - 1].query] == r.calls[|r.calls| - 1].start
    decreases |queries| - i
  {
    if i < |queries| && needed > 0 {
      var s := Visit(provider, queries[i], st, needed);
      VisitCall(provider, queries[i], st, needed);
      if s.failure.None? {
        SweepAbort(provider, queries, i + 1, s.state, s.needed, calls + CallList(s.call));
      }
    }
  }

  /**
   * A pass that fails at query `k` has committed everything the earlier
   * queries fetched: its state is that of the pass over the queries before
   * `k`, which completed without failure, and visiting `k` from there is
   * what failed.
   */
  lemma {:induction false} SweepCommitted(provider: Provider, queries: seq<string>, i: nat, st: SessionState, needed: int, calls: seq<Call>)
    requires i <= |queries| && Tracks(st, queries)
    ensures Sweep(provider, queries, i, st, needed, calls).failure.Some? ==>
      exists k :: i <= k < |queries| && SweepFailsAt(provider, queries, i, st, needed, calls, k)
    decreases |queries| - i
  {
    if i < |queries| && needed > 0 {
      var s := Visit(provider, queries[i], st, needed);
      if s.failure.Some? {
        assert Sweep(provider, queries, i, st, needed, calls) == Pass(s.state, s.needed, calls + CallList(s.call), s.failure);
        SweepFailsHere(provider, queries, i, st, needed, calls);
      } else {
        var calls' := calls + CallList(s.call);
        SweepStep(provider, queries, i, st, needed, calls);
        SweepCommitted(provider, queries, i + 1, s.state, s.needed, calls');
        if Sweep(provider, queries, i + 1, s.state, s.needed, calls').failure.Some? {
          var k :| i + 1 <= k < |queries| && SweepFailsAt(provider, queries, i + 1, s.state, s.needed, calls', k);
          SweepFailsLater(provider, queries, i, st, needed, calls, k);
        }
      }
    }
  }

  /** A pass whose first visit fails fails at that query, having committed nothing new. */
  lemma SweepFailsHere(provider: Provider, queries: seq<string>, i: nat, st: SessionState, needed: int, calls: seq<Call>)
    requires i < |queries| && Tracks(st, queries) && needed > 0
    requires Visit(provider, queries[i], st, needed).failure.Some?
    ensures SweepFailsAt(provider, queries, i, st, needed, calls, i)
  {
    TracksPrefix(st, queries, i);
    assert |queries[..i]| == i;
  }

  /** A pass whose first visit succeeds fails at a later query `k` exactly as the pass from the next query does. */
  lemma SweepFailsLater(provider: Provider, queries: seq<string>, i: nat, st: SessionState, needed: int, calls: seq<Call>, k: nat)
    requires i < k < |queries| && Tracks(st, queries) && needed > 0
    requires Visit(provider, queries[i], st, needed).failure.None?
    ensures var s := Visit(provider, queries[i], st, needed);
      SweepFailsAt(provider, queries, i + 1, s.state, s.needed, calls + CallList(s.call), k) ==>
        SweepFailsAt(provider, queries, i, st, needed, calls, k)
  {
    SweepStep(provider, queries, i, st, needed, calls);
    TracksPrefix(st, queries, k);
    assert queries[..k][i] == queries[i];
    SweepStep(provider, queries[..k], i, st, needed, calls);
  }

  /** A visit that does not fail hands the pass on to the next query. */
  lemma SweepStep(provider: Provider, queries: seq<string>, i: nat, st: SessionState, needed: int, calls: seq<Call>)
    requires i < |queries| && Tracks(st, queries) && needed > 0
    requires Visit(provider, queries[i], st, needed).failure.None?
    ensures var s := Visit(provider, queries[i], st, needed);
      && Tracks(s.state, queries)
      && Sweep(provider, queries, i, st, needed, calls) == Sweep(provider, queries, i + 1, s.state, s.needed, calls + CallList(s.call))
  {
  }

  /** A session that tracks the queries tracks every prefix of them. */
  lemma TracksPrefix(st: SessionState, queries: seq<string>, k: nat)
    requires k <= |queries| && Tracks(st, queries)
    ensures Tracks(st, queries[..k])
  {
    forall q | q in queries[..k] ensures q in st.positions {
      var j :| 0 <= j < k && queries[..k][j] == q;
      assert queries[j] == q;
    }
  }

  /**
   * The pass from `i` reaches query `k` without failing, having committed the
   * state and made the calls of the pass over `queries[..k]`; then the visit
   * of `queries[k]` from that state makes the last call and raises the
   * failure the whole pass ends with.
   */
  predicate SweepFailsAt(provider: Provider, queries: seq<string>, i: nat, st: SessionState, needed: int, calls: seq<Call>, k: nat)
    requires i <= k < |queries| && Tracks(st, queries)
  {
    TracksPrefix(st, queries, k);
    var p := Sweep(provider, queries[..k], i, st, needed, calls);
    var r := Sweep(provider, queries, i, st, needed, calls);
    && p.failure.None? && p.needed > 0
    && r.state == p.state
    && queries[k] in p.state.positions
    && var s := Visit(provider, queries[k], p.state, p.needed);
       && s.failure == r.failure
       && r.calls == p.calls + CallList(s.call)
  }

  /**
   * A failed fetch keeps what the queries before the failing one committed:
   * its state is that of the completed pass over those queries, with the
   * exhaustion flag as it was.
   */
  lemma FetchCommitted(provider: Provider, queries: seq<string>, st: SessionState, target: int)
    requires Tracks(st, queries)
    ensures Fetch(provider, queries, st, target).failure.Some? ==>
      exists k :: 0 <= k < |queries| && FetchFailsAt(provider, queries, st, target, k)
  {
    if !(|st.results| >= target || st.exhausted) {
      var needed := target - |st.results|;
      SweepCommitted(provider, queries, 0, st, needed, []);
      if Sweep(provider, queries, 0, st, needed, []).failure.Some? {
        var k :| 0 <= k < |queries| && SweepFailsAt(provider, queries, 0, st, needed, [], k);
        assert FetchFailsAt(provider, queries, st, target, k);
      }
    }
  }

  /**
   * A fetch that ran its pass and failed at query `k`: the fetch is that pass,
   * and the pass committed what the queries before `k` fetched.
   */
  predicate FetchFailsAt(provider: Provider, queries: seq<string>, st: SessionState, target: int, k: nat)
    requires k < |queries| && Tracks(st, queries)
  {
    && |st.results| < target && !st.exhausted
    && Fetch(provider, queries, st, target) == Sweep(provider, queries, 0, st, target - |st.results|, [])
    && SweepFailsAt(provider, queries, 0, st, target - |st.results|, [], k)
  }

  /**
   * A failure on the second query does not undo the first: with the first
   * query answering one item and the second failing, the fetch reports the
   * failure, the pool keeps that item, the first cursor has moved to 1 and
   * the second is still at 0.
   */
  lemma FailureKeepsEarlierBatches(provider: Provider, q1: string, q2: string, item: RawItem, e: UpstreamFailure, target: int)
    requires q1 != q2 && target >= 2
    requires provider(Request(q1, 0, Clamp(Min(MaxBatch, target)))) == Success([item])
    requires provider(Request(q2, 0, Clamp(Min(MaxBatch, target - 1)))) == Failure(e)
    ensures var r := Fetch(provider, [q1, q2], Initial([q1, q2]), target);
      && r.failure == Some(e)
      && |r.state.results| == 1 && r.state.results[0].link == item.link
      && q1 in r.state.positions && r.state.positions[q1] == 1
      && q2 in r.state.positions && r.state.positions[q2] == 0
      && !r.state.exhausted
  {
    var queries := [q1, q2];
    var st := Initial(queries);
    assert q1 in queries && q2 in queries;
    FirstVisit(provider, q1, st, [item], target);
    var s := Visit(provider, q1, st, target);
    assert s.state.positions[q2] == 0;
    assert s.needed == target - 1;
    var s2 := Visit(provider, q2, s.state, target - 1);
    assert s2.failure == Some(e) && s2.state == s.state;
    assert Sweep(provider, queries, 1, s.state, s.needed, [s.call.value]).state == s.state;
    assert Sweep(provider, queries, 0, st, target, []).state == s.state;
    assert Sweep(provider, queries, 0, st, target, []).failure == Some(e);
    ToItemsAt([item], 0, 0);
  }

  /**
   * Two queries whose pages overlap in one link: the first answers `a, b`,
   * the second `b2, c` with `b2` repeating the link of `b`. The pool ends
   * with `a`, `b` and `c`; the second cursor still moves by the whole page
   * of 2, while `needed` drops by 1 at the second query.
   */
  lemma PartialOverlap(provider: Provider, q1: string, q2: string, a: RawItem, b: RawItem, b2: RawItem, c: RawItem, target: int)
    requires q1 != q2 && target >= 3
    requires a.link != b.link && c.link != a.link && c.link != b.link && b2.link == b.link
    requires provider(Request(q1, 0, Clamp(Min(MaxBatch, target)))) == Success([a, b])
    requires provider(Request(q2, 0, Clamp(Min(MaxBatch, target - 2)))) == Success([b2, c])
    ensures var r := Fetch(provider, [q1, q2], Initial([q1, q2]), target);
      && r.failure.None?
      && |r.state.results| == 3
      && r.state.results[0].link == a.link && r.state.results[1].link == b.link && r.state.results[2].link == c.link
      && r.state.results[2].rank == 2
      && q1 in r.state.positions && r.state.positions[q1] == 2
      && q2 in r.state.positions && r.state.positions[q2] == 2
      && r.calls == [Call(q1, 0, Min(MaxBatch, target)), Call(q2, 0, Min(MaxBatch, target - 2))]
      && r.needed == target - 3
      && !r.state.exhausted
  {
    var queries := [q1, q2];
    var st := Initial(queries);
    assert q1 in queries && q2 in queries;
    FirstVisit(provider, q1, st, [a, b], target);
    var s := Visit(provider, q1, st, target);
    var first := ToItems([a, b], 0);
    ToItemsAt([a, b], 0, 0);
    ToItemsAt([a, b], 0, 1);
    assert s.state.results == first;
    assert s.state.positions[q2] == 0;
    assert s.needed == target - 2;
    var second := ToItems([b2, c], 0);
    ToItemsAt([b2, c], 0, 0);
    ToItemsAt([b2, c], 0, 1);
    assert SearchApi(provider, q2, 0, Min(MaxBatch, target - 2)) == Success(second);
    assert Links(first) == {a.link, b.link} by {
      assert first[1..][1..] == [];
    }
    assert FreshItems(second, {a.link, b.link}) == [second[1]] by {
      assert second[1..][1..] == [];
    }
    var s2 := Visit(provider, q2, s.state, target - 2);
    assert s2.state.results == first + [second[1]];
    assert s2.needed == target - 3;
    assert Sweep(provider, queries, 2, s2.state, s2.needed, [s.call.value, s2.call.value])
        == Pass(s2.state, s2.needed, [s.call.value, s2.call.value], None);
    assert queries[0] == q1 && s.failure.None? && [] + CallList(s.call) == [s.call.value];
    assert Sweep(provider, queries, 1, s.state, s.needed, [s.call.value])
        == Pass(s2.state, s2.needed, [s.call.value, s2.call.value], None);
    assert Sweep(provider, queries, 0, st, target, []) == Pass(s2.state, s2.needed, [s.call.value, s2.call.value], None);
  }

  /** When responses never repeat a link, a pass keeps the links of the pool distinct. */
  lemma {:induction false} SweepDistinct(provider: Provider, queries: seq<string>, i: nat, st: SessionState, needed: int, calls: seq<Call>)
    requires i <= |queries| && Tracks(st, queries)
    requires DistinctBatches(provider) && DistinctLinks(st.results)
    ensures DistinctLinks(Sweep(provider, queries, i, st, needed, calls).state.results)
    decreases |queries| - i
  {
    if i < |queries| && needed > 0 {
      var s := Visit(provider, queries[i], st, needed);
      VisitDistinct(provider, queries[i], st, needed);
      if s.failure.None? {
        SweepDistinct(provider, queries, i + 1, s.state, s.needed, calls + CallList(s.call));
      }
    }
  }

  /** The pool grows by exactly the amount `needed` shrinks over the pass. */
  lemma {:induction false} SweepBalance(provider: Provider, queries: seq<string>, i: nat, st: SessionState, needed: int, calls: seq<Call>)
    requires i <= |queries| && Tracks(st, queries)
    ensures var r := Sweep(provider, queries, i, st, needed, calls);
      |r.state.results| + r.needed == |st.results| + needed
    decreases |queries| - i
  {
    if i < |queries| && needed > 0 {
      var s := Visit(provider, queries[i], st, needed);
      if s.failure.None? {
        SweepBalance(provider, queries, i + 1, s.state, s.needed, calls + CallList(s.call));
      }
    }
  }

  /** With an honest provider `needed` does not drop below 0 during a pass. */
  lemma {:induction false} SweepHonest(provider: Provider, queries: seq<string>, i: nat, st: SessionState, needed: int, calls: seq<Call>)
    requires i <= |queries| && Tracks(st, queries)
    requires Honest(provider) && needed >= 0
    ensures Sweep(provider, queries, i, st, needed, calls).needed >= 0
    decreases |queries| - i
  {
    if i < |queries| && needed > 0 {
      var s := Visit(provider, queries[i], st, needed);
      VisitHonest(provider, queries[i], st, needed);
      if s.failure.None? {
        SweepHonest(provider, queries, i + 1, s.state, s.needed, calls + CallList(s.call));
      }
    }
  }

  /** With an honest provider a pass keeps every cursor below 110. */
  lemma {:induction false} SweepCursorBound(provider: Provider, queries: seq<string>, i: nat, st: SessionState, needed: int, calls: seq<Call>)
    requires i <= |queries| && Tracks(st, queries)
    requires Honest(provider) && CursorsBelow(st, MaxStart + MaxBatch)
    ensures CursorsBelow(Sweep(provider, queries, i, st, needed, calls).state, MaxStart + MaxBatch)
    decreases |queries| - i
  {
    if i < |queries| && needed > 0 {
      var s := Visit(provider, queries[i], st, needed);
      VisitCursorBound(provider, queries[i], st, needed);
      if s.failure.None? {
        SweepCursorBound(provider, queries, i + 1, s.state, s.needed, calls + CallList(s.call));
      }
    }
  }

  /** A fetch for a target the pool already meets, or on an exhausted session, makes no call and changes nothing. */
  lemma FetchIdle(provider: Provider, queries: seq<string>, st: SessionState, target: int)
    requires Tracks(st, queries)
    requires |st.results| >= target || st.exhausted
    ensures Fetch(provider, queries, st, target) == Pass(st, 0, [], None)
  {
  }

  /**
   * A fetch only appends items whose links were not in the pool before it,
   * only advances cursors, never clears the exhaustion flag, and leaves the
   * flag alone when it fails.
   */
  lemma FetchExtends(provider: Provider, queries: seq<string>, st: SessionState, target: int)
    requires Tracks(st, queries)
    ensures var r := Fetch(provider, queries, st, target);
      && Extends(st, r.state) && AddsFresh(st, r.state)
      && (r.failure.Some? ==> r.state.exhausted == st.exhausted)
  {
    if !(|st.results| >= target || st.exhausted) {
      SweepExtends(provider, queries, 0, st, target - |st.results|, []);
    }
  }

  /** A fetch that runs and completes marks the session exhausted exactly when the pool did not grow. */
  lemma FetchExhaustion(provider: Provider, queries: seq<string>, st: SessionState, target: int)
    requires Tracks(st, queries)
    requires |st.results| < target && !st.exhausted
    ensures var r := Fetch(provider, queries, st, target);
      r.failure.None? ==> (r.state.exhausted <==> |r.state.results| == |st.results|)
  {
    SweepExtends(provider, queries, 0, st, target - |st.results|, []);
  }

  /**
   * Every call of a fetch is for one of the session's queries, from a cursor
   * below 100, for between 1 and 10 items and no more than the pool lacked.
   */
  lemma FetchCalls(provider: Provider, queries: seq<string>, st: SessionState, target: int)
    requires Tracks(st, queries)
    ensures var r := Fetch(provider, queries, st, target);
      forall j :: 0 <= j < |r.calls| ==> CallWithin(r.calls[j], queries, target - |st.results|)
  {
    if !(|st.results| >= target || st.exhausted) {
      var needed := target - |st.results|;
      SweepCalls(provider, queries, 0, st, needed, []);
      assert queries[0..] == queries;
      forall j | 0 <= j < |Sweep(provider, queries, 0, st, needed, []).calls|
        ensures CallWithin(Sweep(provider, queries, 0, st, needed, []).calls[j], queries, needed)
      {
        assert CallWithin(Sweep(provider, queries, 0, st, needed, []).calls[j], queries[0..], needed);
      }
    }
  }

  /** A failed fetch ends at a call whose query keeps the cursor it was requested from. */
  lemma FetchAbort(provider: Provider, queries: seq<string>, st: SessionState, target: int)
    requires Tracks(st, queries)
    ensures var r := Fetch(provider, queries, st, target);
      r.failure.Some? ==>
        && |r.calls| > 0
        && r.calls[|r.calls| - 1].query in r.state.positions
        && r.state.positions[r.calls[|r.calls| - 1].query] == r.calls[|r.calls| - 1].start
  {
    if !(|st.results| >= target || st.exhausted) {
      SweepAbort(provider, queries, 0, st, target - |st.results|, []);
    }
  }

  /** A fetch moves no cursor of a key that is not one of the session's queries. */
  lemma FetchUntouched(provider: Provider, queries: seq<string>, st: SessionState, target: int)
    requires Tracks(st, queries)
    ensures var r := Fetch(provider, queries, st, target);
      forall k :: k in st.positions && k !in queries ==> k in r.state.positions && r.state.positions[k] == st.positions[k]
  {
    if !(|st.results| >= target || st.exhausted) {
      SweepUntouched(provider, queries, 0, st, target - |st.results|, []);
      assert queries[0..] == queries;
    }
  }

  /** When responses never repeat a link, a fetch keeps the links of the pool distinct. */
  lemma FetchDistinct(provider: Provider, queries: seq<string>, st: SessionState, target: int)
    requires Tracks(st, queries)
    requires DistinctBatches(provider) && DistinctLinks(st.results)
    ensures DistinctLinks(Fetch(provider, queries, st, target).state.results)
  {
    if !(|st.results| >= target || st.exhausted) {
      SweepDistinct(provider, queries, 0, st, target - |st.results|, []);
    }
  }

  /** With an honest provider a fetch never takes the pool past its target, and keeps every cursor below 110. */
  lemma FetchHonest(provider: Provider, queries: seq<string>, st: SessionState, target: int)
    requires Tracks(st, queries)
    requires Honest(provider) && CursorsBelow(st, MaxStart + MaxBatch)
    ensures var r := Fetch(provider, queries, st, target);
      && |r.state.results| <= Max(|st.results|, target)
      && CursorsBelow(r.state, MaxStart + MaxBatch)
  {
    if !(|st.results| >= target || st.exhausted) {
      var needed := target - |st.results|;
      SweepBalance(provider, queries, 0, st, needed, []);
      SweepHonest(provider, queries, 0, st, needed, []);
      SweepCursorBound(provider, queries, 0, st, needed, []);
    }
  }

  /** Against an empty set of links every item is fresh. */
  lemma {:induction false} FreshItemsNone(batch: seq<Item>)
    ensures FreshItems(batch, {}) == batch
  {
    if |batch| > 0 {
      FreshItemsNone(batch[1..]);
      assert batch == [batch[0]] + batch[1..];
    }
  }

  /** A new session has an empty pool and the query's cursor at 0. */
  lemma InitialSingle(query: string)
    ensures Initial([query]).results == [] && query in Initial([query]).positions
    ensures Initial([query]).positions[query] == 0 && !Initial([query]).exhausted
  {
    assert query in [query];
  }

  /** A non-empty first response for a query at cursor 0 of an empty pool is kept whole, ranked from 1. */
  lemma FirstVisit(provider: Provider, query: string, st: SessionState, raw: seq<RawItem>, needed: int)
    requires st.results == [] && query in st.positions && st.positions[query] == 0
    requires provider(Request(query, 0, Clamp(Min(MaxBatch, needed)))) == Success(raw)
    requires needed > 0 && raw != []
    ensures Visit(provider, query, st, needed)
         == Step(AddResults(st, ToItems(raw, 0), query, |raw|), needed - |raw|, Some(Call(query, 0, Min(MaxBatch, needed))), None)
  {
    var batch := ToItems(raw, 0);
    assert SearchApi(provider, query, 0, Min(MaxBatch, needed)) == Success(batch);
    assert Links(st.results) == {};
    FreshItemsNone(batch);
  }

  /**
   * Links are checked against the pool as it was before the batch, not
   * against the rest of the batch: a response that repeats a link puts
   * both copies in the pool.
   */
  lemma InBatchDuplicatesKept(provider: Provider, query: string, item: RawItem, target: int)
    requires forall r :: provider(r) == Success([item, item])
    requires target >= 1
    ensures var r := Fetch(provider, [query], Initial([query]), target);
      && |r.state.results| == 2
      && r.state.results[0].link == r.state.results[1].link == item.link
  {
    var st := Initial([query]);
    InitialSingle(query);
    FirstVisit(provider, query, st, [item, item], target);
    var s := Visit(provider, query, st, target);
    assert Sweep(provider, [query], 0, st, target, []).state == s.state;
  }

  /**
   * One pass need not reach its target nor mark the session exhausted: an
   * honest provider that returns one item per request leaves a single-query
   * session one item long, still not exhausted.
   */
  lemma PassMayFallShort(provider: Provider, query: string, item: RawItem, target: int)
    requires forall r :: provider(r) == Success([item])
    requires target >= 2
    ensures Honest(provider)
    ensures var r := Fetch(provider, [query], Initial([query]), target);
      && r.failure.None?
      && |r.state.results| == 1 < target
      && !r.state.exhausted
  {
    var st := Initial([query]);
    InitialSingle(query);
    FirstVisit(provider, query, st, [item], target);
    var s := Visit(provider, query, st, target);
    assert Sweep(provider, [query], 0, st, target, []) == Pass(s.state, s.needed, [s.call.value], None);
  }
}
