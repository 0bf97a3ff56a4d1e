/**
 * The pure parts of the pagination facade: the slice `get_results` returns,
 * the `pagination` block of a response, and the read-ahead top-up that runs
 * before a page is cut.
 */
module Paging {
  import opened Wrappers
  import opened Upstream
  import opened Aggregation

  /** How many items beyond the requested page a top-up asks for. */
  const ReadAhead := 10

  /** The `pagination` block of a response. */
  datatype PageInfo = PageInfo(
    offset: nat,
    resultsReturned: nat,
    totalResultsAvailable: nat,
    hasMore: bool,
    nextOffset: Option<nat>)

  /** `get_results(offset, limit)`: the slice `results[offset:offset + limit]`, clamped to the pool. */
  function Window(pool: seq<Item>, offset: nat, limit: nat): (w: seq<Item>)
    ensures |w| == if offset >= |pool| then 0 else Min(limit, |pool| - offset)
    ensures forall k :: 0 <= k < |w| ==> w[k] == pool[offset + k]
  {
    if offset >= |pool| then [] else pool[offset..Min(offset + limit, |pool|)]
  }

  /** The pagination block for `returned` items served from `offset` out of a pool of `total`. */
  function PageInfoOf(offset: nat, returned: nat, total: nat, exhausted: bool): PageInfo
  {
    var hasMore := offset + returned < total || !exhausted;
    PageInfo(offset, returned, total, hasMore, if hasMore then Some(offset + returned) else None)
  }

  /** `needs_more_results` followed by the read-ahead fetch, as both facade methods do before cutting a page. */
  function TopUp(provider: Provider, queries: seq<string>, st: SessionState, required: int): Pass
    requires Tracks(st, queries)
  {
    if NeedsMore(st, required) then Fetch(provider, queries, st, required + ReadAhead)
    else Pass(st, 0, [], None)
  }

  /** A page is full exactly when the pool reaches its end, and only the last page of a pool can be short. */
  lemma WindowFull(pool: seq<Item>, offset: nat, limit: nat)
    ensures |Window(pool, offset, limit)| == limit <==> (limit == 0 || offset + limit <= |pool|)
    ensures |Window(pool, offset, limit)| <= limit
  {
  }

  /** Once the pool covers a page, growing the pool at its end does not change that page. */
  lemma WindowStable(pool: seq<Item>, pool': seq<Item>, offset: nat, limit: nat)
    requires pool <= pool'
    requires offset + limit <= |pool|
    ensures Window(pool', offset, limit) == Window(pool, offset, limit)
  {
  }

  /** Growing the pool at its end only extends a page: what it held stays, in order. */
  lemma WindowGrows(pool: seq<Item>, pool': seq<Item>, offset: nat, limit: nat)
    requires pool <= pool'
    ensures Window(pool, offset, limit) <= Window(pool', offset, limit)
  {
    var w, w' := Window(pool, offset, limit), Window(pool', offset, limit);
    assert |w| <= |w'|;
    forall k | 0 <= k < |w|
      ensures w[k] == w'[k]
    {
      assert w[k] == pool[offset + k] == pool'[offset + k];
    }
  }

  /** Two pages served back to back, the second from where the first stopped, make up the page of their combined size: no item is skipped or repeated. */
  lemma WindowsConcat(pool: seq<Item>, offset: nat, a: nat, b: nat)
    ensures Window(pool, offset, a) + Window(pool, offset + |Window(pool, offset, a)|, b) == Window(pool, offset, a + b)
  {
    var w1 := Window(pool, offset, a);
    var w2 := Window(pool, offset + |w1|, b);
    var w := Window(pool, offset, a + b);
    assert |w1 + w2| == |w|;
    forall k | 0 <= k < |w|
      ensures (w1 + w2)[k] == w[k]
    {
      if k >= |w1| {
        assert w2[k - |w1|] == pool[offset + k];
      }
    }
  }

  /**
   * A page cut from a pool, followed by the page from where it stopped cut
   * from the pool grown at its end, is the single page of both sizes in the
   * grown pool: paging through a growing pool skips and repeats nothing.
   */
  lemma SuccessivePages(pool: seq<Item>, pool': seq<Item>, offset: nat, a: nat, b: nat)
    requires pool <= pool'
    ensures var first := Window(pool, offset, a);
      first + Window(pool', offset + |first|, b) == Window(pool', offset, |first| + b)
  {
    var first := Window(pool, offset, a);
    WindowsConcat(pool', offset, |first|, b);
    if offset < |pool| {
      WindowStable(pool, pool', offset, |first|);
      assert Window(pool, offset, |first|) == first;
    }
  }

  /**
   * `next_offset` is present exactly when `has_more` holds, and then points
   * just past the page; `has_more` fails exactly when the page reached the
   * end of the pool and the session is exhausted.
   */
  lemma PageInfoSpec(offset: nat, returned: nat, total: nat, exhausted: bool)
    ensures var p := PageInfoOf(offset, returned, total, exhausted);
      && p.offset == offset && p.resultsReturned == returned && p.totalResultsAvailable == total
      && (p.nextOffset.Some? <==> p.hasMore)
      && (p.hasMore ==> p.nextOffset == Some(offset + returned))
      && (!p.hasMore <==> offset + returned >= total && exhausted)
  {
  }

  /**
   * When a page reports no more results, the session is done: a top-up for
   * any later page makes no call and changes nothing, and the page at the
   * next offset is empty.
   */
  lemma NoMoreMeansDone(provider: Provider, queries: seq<string>, st: SessionState, offset: nat, limit: nat, required: int, next: nat)
    requires Tracks(st, queries)
    requires !PageInfoOf(offset, |Window(st.results, offset, limit)|, |st.results|, st.exhausted).hasMore
    ensures TopUp(provider, queries, st, required) == Pass(st, 0, [], None)
    ensures Window(st.results, offset + |Window(st.results, offset, limit)|, next) == []
  {
  }

  /** A top-up runs only while the pool is short of the page and the session not exhausted, and then aims 10 past the page. */
  lemma TopUpSpec(provider: Provider, queries: seq<string>, st: SessionState, required: int)
    requires Tracks(st, queries)
    ensures NeedsMore(st, required) ==> TopUp(provider, queries, st, required) == Fetch(provider, queries, st, required + ReadAhead)
    ensures !NeedsMore(st, required) ==> TopUp(provider, queries, st, required).state == st && TopUp(provider, queries, st, required).calls == []
  {
  }

  /** With an honest provider a top-up leaves at most 10 items beyond the page, unless the pool was already larger. */
  lemma TopUpBounded(provider: Provider, queries: seq<string>, st: SessionState, required: int)
    requires Tracks(st, queries)
    requires Honest(provider) && CursorsBelow(st, MaxStart + MaxBatch)
    ensures |TopUp(provider, queries, st, required).state.results| <= Max(|st.results|, required + ReadAhead)
  {
    if NeedsMore(st, required) {
      FetchHonest(provider, queries, st, required + ReadAhead);
    }
  }
}
