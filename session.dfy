/**
 * `SearchSession`: the mutable record of one search, holding the result pool,
 * a cursor per query, the exhaustion flag and the read cursor of
 * `get_more_results`. Its aggregation state is `State()`, which the
 * functions of `Aggregation` specify.
 */
module Sessions {
  import opened Wrappers
  import opened Upstream
  import opened Aggregation

  class Session {
    const id: string
    const originalPrompt: string
    const queries: seq<string>
    var results: seq<Item>
    var queryPositions: map<string, nat>
    var totalApiCalls: nat
    var isExhausted: bool
    var lastReturnedOffset: nat

    /** Every query has a cursor. */
    predicate Valid()
      reads this
    {
      Tracks(State(), queries)
    }

    /** The fields a fetch reads and writes, as a value. */
    function State(): SessionState
      reads this
    {
      SessionState(results, queryPositions, totalApiCalls, isExhausted)
    }

    /** A session starts with an empty pool, every query's cursor at 0, no calls and nothing served. */
    constructor (id: string, originalPrompt: string, queries: seq<string>)
      ensures Valid()
      ensures this.id == id && this.originalPrompt == originalPrompt && this.queries == queries
      ensures State() == Initial(queries) && lastReturnedOffset == 0
    {
      this.id := id;
      this.originalPrompt := originalPrompt;
      this.queries := queries;
      results := [];
      queryPositions := map q | q in queries :: 0;
      totalApiCalls := 0;
      isExhausted := false;
      lastReturnedOffset := 0;
    }

    /** `add_results`: append the kept items, advance the query's cursor by the fetched count, count the call. */
    method AddResults(newResults: seq<Item>, query: string, fetchedCount: nat)
      requires Valid() && query in queryPositions
      modifies this
      ensures Valid()
      ensures State() == Aggregation.AddResults(old(State()), newResults, query, fetchedCount)
      ensures lastReturnedOffset == old(lastReturnedOffset)
    {
      results := results + newResults;
      queryPositions := queryPositions[query := queryPositions[query] + fetchedCount];
      totalApiCalls := totalApiCalls + 1;
    }
  }
}
