# Session-based search aggregation, modelled in Dafny

The lead-generation service turns a user's prompt into up to five search
queries, runs them against Google Custom Search with aggregator sites
excluded, and pools the results in one session per user, prompt and
calendar day. It serves that pool page by page. Within a session:

- every query keeps its own cursor into its result stream;
- a new batch drops the items whose link is already in the pool;
- a session that gains nothing in a full pass is marked exhausted;
- a read cursor lets a caller ask for "the next page" without an offset.

This project models the core of `app/services/search_engine.py` and proves
properties of that model.

The modules follow the program's layers:

- `Wrappers`: `Option`, `Result`, `Min`, `Max`.
- `Text`: the Python string operations the parser uses.
  - `str.strip` is modelled with the `isspace` set or a given character.
  - `str.split` and `str.join` take a one-character separator.
  - `str.lower` covers the ASCII letters only.
- `QueryParsing`: how `prompt_to_queries` turns the language model's answer into queries.
  - The line cleanup and the length filter.
  - The comma fallback, the three templates, and the cut to five.
  - `ExtractQueries` is the loop as the source writes it. It is proved equal to the function `ParseQueries`.
- `Upstream`: `build_query` and `call_google_search_api`.
  - The HTTP provider is a function parameter from a request to items or a failure.
  - The service clamps the count into [1, 10] and ranks items `start + i + 1`.
- `Aggregation`: the fetch loop of `fetch_more_results`, as values.
  - `Visit` is one loop iteration.
  - `Sweep` is the loop from a given query on.
  - `Fetch` is the whole call, including the exhaustion rule.
  - Every property of the loop is a lemma about these functions.
- `Paging`:
  - the slice of `get_results`;
  - the `pagination` block;
  - the `needs_more_results` top-up with its 10-item read-ahead.
- `Sessions`: the `SearchSession` object as a class whose fields the methods update.
- `Engine`: the `SearchEngine` object.
  - Its dictionary of sessions.
  - `fetch_more_results` as a method with a `while` loop proved against `Fetch`.
  - `search_with_offset` and `get_more_results` proved against `Prepare`/`TopUp` and `PageOf`.

Parameters:

- The language model's answer is an argument to `SearchWithOffset`: the answer text, or the error the call raised.
- The search provider is a `Provider` argument to every method that fetches.
- The MD5 digest of the session key is a function the engine is built with.
- The calendar day is an argument.

The provider receives a `Request` holding the query before augmentation.
The text actually sent as `q` is `BuildQuery(query)`. `WireInjective`
proves that augmentation injective. So a provider keyed on requests
answers exactly as one keyed on the parameters on the wire would.

Points where the code does something a reader might not expect. The model
follows the code in each:

- **Duplicates within one batch are kept.** (`InBatchDuplicatesKept`) Only links already in the pool before the batch are filtered out. So "no two pooled items share a link" holds only when the provider never repeats a link within one page (`FetchDistinct`, `PrepareDistinct`).
- **One call to `fetch_more_results` is one pass, not a guarantee.** (`PassMayFallShort`) It need not leave `target` items, or an exhausted session, behind. It marks the session exhausted exactly when a completed pass added nothing (`FetchExhaustion`).
- **A query's cursor can go past 100.**
  - A query is skipped once its cursor reaches 100.
  - A cursor below 100 still advances by the whole batch.
  - With an honest provider every cursor stays below 110 (`FetchHonest`, `NewSessionBounded`).
- **An empty page moves nothing.** It advances no cursor and is not counted as a call.
- **A failing provider call aborts the call.**
  - Whatever earlier queries added is kept (`FetchCommitted`, `FailureKeepsEarlierBatches`).
  - The failed query's cursor stays where the failed request started (`FetchAbort`).
  - The exhaustion flag is untouched.
- **The comma fallback can produce an empty query.** (`CommaFallbackYieldsEmptyQuery`) That happens for the answer `"",ab`.
- **`has_more` is true whenever the session is not exhausted.** This holds even when the page already reached the end of the pool.

## Model

| member | source | states |
|---|---|---|
| Text.Strip | app/services/search_engine.py:87 | stripping never lengthens a string |
| Text.StripDropped | app/services/search_engine.py:87 | everything stripped from either end belongs to the stripped class |
| Text.StripEnds | app/services/search_engine.py:87 | a stripped string is empty or neither starts nor ends with a stripped character |
| Text.StripChars | app/services/search_engine.py:87 | stripping only removes characters |
| Text.TrimStartSpec | app/services/search_engine.py:90-91 | a left strip drops exactly the leading run of the class, and what remains does not start with it |
| Text.Split | app/services/search_engine.py:86 | a split yields at least one piece |
| Text.SplitPieces | app/services/search_engine.py:86 | no piece of a split holds the separator |
| Text.JoinSplit | app/services/search_engine.py:86 | joining the pieces of a split with the separator gives back the string |
| Text.SplitJoin | app/services/search_engine.py:131 | splitting a join of separator-free pieces gives back the pieces |
| Text.JoinAppend | app/services/search_engine.py:131 | joining a list with one more piece appends the separator and that piece |
| Text.Join | app/services/search_engine.py:131 | `" ".join`; stated by `JoinSplit`, `SplitJoin` and `JoinAppend` |
| Text.Lower | app/services/search_engine.py:101 | lower-casing keeps the length, leaves no ASCII capital and changes nothing else |
| QueryParsing.StripNumbering | app/services/search_engine.py:90 | never lengthens; a line not starting with a digit is unchanged |
| QueryParsing.StripBullet | app/services/search_engine.py:91 | never lengthens; a line not starting with `-` or `*` is unchanged |
| QueryParsing.StripNumberingMarker | app/services/search_engine.py:90 | the numbering is removed exactly when the line starts with a run of digits followed by `.` or `)` |
| QueryParsing.StripNumberingRest | app/services/search_engine.py:90 | then what remains is the line after the marker and all the blanks after it |
| QueryParsing.StripBulletSpec | app/services/search_engine.py:91 | the bullet is removed exactly when the line starts with `-` or `*`, and then with all the blanks after it |
| QueryParsing.CleanLineChars | app/services/search_engine.py:87-92 | a cleaned line holds only characters of the raw line |
| QueryParsing.StripQuotes | app/services/search_engine.py:92 | stripping quotes never lengthens a line |
| QueryParsing.CleanLine | app/services/search_engine.py:87-92 | cleaning never lengthens a line; its characters come from the raw line (`CleanLineChars`) |
| QueryParsing.Templates | app/services/search_engine.py:100-106 | the fallback is exactly three queries |
| QueryParsing.Candidates | app/services/search_engine.py:85-106 | the list before the cut is never empty |
| QueryParsing.ParseQueries | app/services/search_engine.py:85-109 | the parsed answer always yields between one and five queries |
| QueryParsing.CollectLines | app/services/search_engine.py:85-95 | the line loop collects exactly the long-enough cleaned lines, in order |
| QueryParsing.ExtractQueries | app/services/search_engine.py:85-109 | the imperative parsing returns `ParseQueries` of the answer, one to five queries |
| QueryParsing.KeepLongMembers | app/services/search_engine.py:94-95 | a string is kept exactly when it is a cleaned line longer than five characters |
| QueryParsing.ParseQueriesFromLines | app/services/search_engine.py:85-109 | with a usable line, every query is a cleaned line of the answer, longer than five, without a line break |
| QueryParsing.LongLineIsKept | app/services/search_engine.py:94-95 | any line that cleans up to more than five characters makes the line path non-empty |
| QueryParsing.CommaQueriesEmpty | app/services/search_engine.py:98 | the comma fallback is empty exactly when every piece is blank |
| QueryParsing.CommaQueries | app/services/search_engine.py:98 | at most one query per comma piece; its members and emptiness are stated by `CommaQueriesMembers` and `CommaQueriesEmpty` |
| QueryParsing.CommaQueriesMembers | app/services/search_engine.py:98 | a string is a comma query exactly when some non-blank piece, with blanks and quotes stripped, is that string |
| QueryParsing.ParseQueriesFromCommas | app/services/search_engine.py:97-98 | with no usable line and a non-blank comma piece, every query comes from such a piece |
| QueryParsing.ParseQueriesFallback | app/services/search_engine.py:100-106 | with neither lines nor comma pieces, the queries are the three templates |
| QueryParsing.NoUsableLine | app/services/search_engine.py:85-95 | the answer `"",ab` has no usable line |
| QueryParsing.QuotePieceBecomesEmpty | app/services/search_engine.py:98 | its comma pieces become `""` and `ab`, the first emptied by the quote strip |
| QueryParsing.CommaFallbackYieldsEmptyQuery | app/services/search_engine.py:97-109 | so the empty string is one of the returned queries |
| Upstream.SiteClauses | app/services/search_engine.py:131 | one `-site:` clause per aggregator |
| Upstream.BuildQuery | app/services/search_engine.py:119-133 | the query, then the 30 `-site:` clauses and `-"Top"`; stated by `BuildQueryShape`, `BuildQueryIndependent` and `BuildQueryInjective` |
| Upstream.Clamp | app/services/search_engine.py:137 | the count sent is in [1, 10]: the caller's count when in range, 10 above it, 1 below it |
| Upstream.ToItems | app/services/search_engine.py:157-166 | one item per provider item |
| Upstream.ToItemsAt | app/services/search_engine.py:157-166 | item `i` carries the provider's title, link, snippet and display link, ranked `start + i + 1` |
| Upstream.SearchApi | app/services/search_engine.py:135-185 | the call with the count clamped; stated by `SearchApiResult` |
| Upstream.SearchApiResult | app/services/search_engine.py:135-185 | the call fails exactly when the provider does, with its failure; otherwise same number of items, same links, rank `start + i + 1` |
| Upstream.SuffixShape | app/services/search_engine.py:131-133 | the appended text is a blank and the site clauses and `-"Top"` joined by blanks |
| Upstream.AugmentShape | app/services/search_engine.py:131-133 | an augmented query is the query, a blank, and the exclusion clauses joined by blanks |
| Upstream.BuildQueryShape | app/services/search_engine.py:119-133 | the same for the 30 aggregator sites of `build_query` |
| Upstream.AggregatorSitesNoBlank | app/services/search_engine.py:120-127 | no aggregator domain holds a blank |
| Upstream.SiteClausesNoBlank | app/services/search_engine.py:131 | a clause holds a blank only if its site does |
| Upstream.SuffixClauses | app/services/search_engine.py:131-133 | split at blanks, the appended text is exactly the exclusion clauses |
| Upstream.ExclusionClausesSplit | app/services/search_engine.py:119-133 | the 31 clauses (30 sites, then the keyword) are recovered by splitting |
| Upstream.BuildQueryIndependent | app/services/search_engine.py:133 | the query is a prefix and the appended text does not depend on it |
| Upstream.BuildQueryInjective | app/services/search_engine.py:119-133 | different queries are sent as different texts |
| Upstream.WireInjective | app/services/search_engine.py:136-145 | two requests with the same wire parameters are the same request |
| Aggregation.Initial | app/services/search_engine.py:17-27 | a new session has a cursor for every query |
| Aggregation.InitialSingle | app/services/search_engine.py:17-27 | a new session starts empty, not exhausted, its query at cursor 0 |
| Aggregation.AddResults | app/services/search_engine.py:29-33 | adding results never adds or removes a cursor |
| Aggregation.FreshItems | app/services/search_engine.py:208-209 | the filter never lengthens a batch |
| Aggregation.FreshItemsMembers | app/services/search_engine.py:208-209 | an item survives exactly when it is in the batch and its link not in the pool |
| Aggregation.FreshItemsNone | app/services/search_engine.py:208-209 | against an empty pool the whole batch survives |
| Aggregation.FreshItemsDistinct | app/services/search_engine.py:208-209 | filtering keeps a batch free of repeated links |
| Aggregation.LinksOf | app/services/search_engine.py:208 | every pooled item's link is in the link set |
| Aggregation.LinksMembers | app/services/search_engine.py:208 | a link is in the link set exactly when some pooled item carries it |
| Aggregation.Links | app/services/search_engine.py:208 | the set of pooled links; stated by `LinksMembers` |
| Aggregation.LinksPrefix | app/services/search_engine.py:208 | growing the pool only grows the link set |
| Aggregation.ApiDistinct | app/services/search_engine.py:157-166 | a provider without repeated links in a page gives items without repeated links |
| Aggregation.Visit | app/services/search_engine.py:195-212 | one iteration keeps the set of cursors, and pool size plus `needed` is unchanged |
| Aggregation.VisitExtends | app/services/search_engine.py:195-212 | one iteration only appends new-link items, keeps exhaustion, and never raises `needed` |
| Aggregation.VisitAppendsFresh | app/services/search_engine.py:205-212 | a successful call appends every page item whose link is new, in page order, and nothing else; `needed` drops by exactly the number appended |
| Aggregation.VisitOtherCursors | app/services/search_engine.py:198-211 | an iteration moves no other query's cursor |
| Aggregation.VisitCursor | app/services/search_engine.py:198-211 | the visited cursor moves by the number of items the provider returned, or not at all |
| Aggregation.VisitCall | app/services/search_engine.py:198-203 | an iteration calls only below cursor 100, for `min(10, needed)` items at the cursor |
| Aggregation.VisitHonest | app/services/search_engine.py:202-212 | with an honest provider `needed` never goes negative |
| Aggregation.VisitCursorBound | app/services/search_engine.py:198-211 | with an honest provider cursors stay below 110 |
| Aggregation.VisitDistinct | app/services/search_engine.py:205-211 | an iteration keeps the pool free of repeated links when the provider's pages are |
| Aggregation.ExtendsTrans | app/services/search_engine.py:187-215 | growth of the session, and new links only, compose over successive steps |
| Aggregation.SweepExtends | app/services/search_engine.py:194-212 | the loop only extends the session and never touches exhaustion |
| Aggregation.SweepCallsPrefix | app/services/search_engine.py:194-212 | the loop only appends to the calls made |
| Aggregation.SweepCalls | app/services/search_engine.py:194-212 | every call is for a remaining query, below cursor 100, for 1 to `needed` (at most 10) items |
| Aggregation.SweepUntouched | app/services/search_engine.py:194-212 | a cursor of a query not visited is unchanged |
| Aggregation.SweepAbort | app/services/search_engine.py:203 | after a failure the failed query's cursor is still the start of the failed call |
| Aggregation.SweepCommitted | app/services/search_engine.py:194-212 | a failed pass fails at some query `k`: it keeps the state and calls of the completed pass over the queries before `k`, and the visit of `k` raised the failure |
| Aggregation.SweepDistinct | app/services/search_engine.py:194-212 | the loop keeps the pool free of repeated links |
| Aggregation.SweepBalance | app/services/search_engine.py:209-212 | pool size plus `needed` is the same before and after the loop |
| Aggregation.SweepHonest | app/services/search_engine.py:202-212 | with an honest provider `needed` stays non-negative |
| Aggregation.SweepCursorBound | app/services/search_engine.py:198-211 | with an honest provider every cursor stays below 110 |
| Aggregation.Sweep | app/services/search_engine.py:194-212 | the loop of the pass; stated by the `Sweep…` lemmas above |
| Aggregation.FetchIdle | app/services/search_engine.py:188-190 | a met target or an exhausted session means no call and no change |
| Aggregation.FetchExtends | app/services/search_engine.py:187-215 | a fetch only extends the session; a failed one leaves exhaustion as it was |
| Aggregation.FetchExhaustion | app/services/search_engine.py:214-215 | a completed pass marks the session exhausted exactly when the pool did not grow |
| Aggregation.FetchCalls | app/services/search_engine.py:194-203 | every call is for a session query, below cursor 100, for 1 to `target - len(results)` (at most 10) items |
| Aggregation.FetchAbort | app/services/search_engine.py:203 | a failed fetch made a call, and that query's cursor is where the failed call started |
| Aggregation.FetchCommitted | app/services/search_engine.py:187-212 | a failed fetch ran its pass, and what the queries before the failing one added stays in the session |
| Aggregation.FailureKeepsEarlierBatches | app/services/search_engine.py:194-212 | with the first of two queries answering one item and the second failing, the item stays pooled, the first cursor is at 1, the second at 0 |
| Aggregation.FetchUntouched | app/services/search_engine.py:194-212 | cursors of keys that are not session queries do not move |
| Aggregation.FetchDistinct | app/services/search_engine.py:208-211 | with a provider free of in-page repeats, a pool without repeated links keeps none |
| Aggregation.FetchHonest | app/services/search_engine.py:192-212 | with an honest provider the pool ends no larger than the target, or than it was, and cursors stay below 110 |
| Aggregation.FirstVisit | app/services/search_engine.py:198-212 | the first visit of an empty session adds the whole page, ranked from 1, and advances the cursor by its size |
| Aggregation.InBatchDuplicatesKept | app/services/search_engine.py:208-211 | a page repeating one link puts both copies in the pool |
| Aggregation.PassMayFallShort | app/services/search_engine.py:187-215 | a fetch can end short of its target, without failure and not exhausted |
| Aggregation.PartialOverlap | app/services/search_engine.py:194-215 | with pages `a, b` and `b2, c`, `b2` repeating the link of `b`: the pool ends `a, b, c`, the second cursor still moves to 2, `needed` drops by 1 at the second query |
| Aggregation.Fetch | app/services/search_engine.py:187-215 | `fetch_more_results`; stated by the `Fetch…` lemmas above |
| Aggregation.NeedsMore | app/services/search_engine.py:39-40 | `needs_more_results`; it guards the top-up of `TopUpSpec` |
| Paging.Window | app/services/search_engine.py:35-37 | the slice has the clamped length and item `k` is pool item `offset + k` |
| Paging.WindowFull | app/services/search_engine.py:35-37 | a page is full exactly when the pool reaches its end |
| Paging.WindowStable | app/services/search_engine.py:35-37 | a page the pool covers is unchanged by growth of the pool |
| Paging.WindowGrows | app/services/search_engine.py:35-37 | growth of the pool only extends a page |
| Paging.WindowsConcat | app/services/search_engine.py:272-273 | two back-to-back pages make the page of their combined size |
| Paging.SuccessivePages | app/services/search_engine.py:233-234 | a page then the next page from its end, over a growing pool, skip and repeat nothing |
| Paging.PageInfoSpec | app/services/search_engine.py:236-246 | `next_offset` is present exactly with `has_more`, points past the page; `has_more` fails exactly at the end of an exhausted pool |
| Paging.PageInfoOf | app/services/search_engine.py:236-246 | the `pagination` block; stated by `PageInfoSpec` |
| Paging.NoMoreMeansDone | app/services/search_engine.py:229-236 | once a page reports no more, any top-up is a no-op and the next page is empty |
| Paging.TopUpSpec | app/services/search_engine.py:229-231 | the top-up fetches to 10 past the page exactly when `needs_more_results` holds, and otherwise makes no call |
| Paging.TopUpBounded | app/services/search_engine.py:229-231 | with an honest provider a top-up leaves at most 10 items past the page, unless the pool was larger |
| Paging.TopUp | app/services/search_engine.py:229-231 | the top-up of an existing session; stated by `TopUpSpec` and `TopUpBounded` |
| Sessions.Session.constructor | app/services/search_engine.py:17-27 | a new session is empty, every query at cursor 0, not exhausted, read cursor 0 |
| Sessions.Session.AddResults | app/services/search_engine.py:29-33 | appends the items, advances the query's cursor by the fetched count, counts one call |
| Engine.PrepareExtends | app/services/search_engine.py:222-231 | the fetches before a page only extend the session |
| Engine.PrepareDistinct | app/services/search_engine.py:222-231 | they keep the pool free of repeated links when the provider's pages are |
| Engine.NewSessionBounded | app/services/search_engine.py:222-231 | a new session holds at most 10 items past the page, cursors below 110, with an honest provider |
| Engine.RepeatedPageIdempotent | app/services/search_engine.py:227-234 | when the pool covers the page or the session is exhausted, an existing session's page is served with no call and no change, so a repeated request returns the same page |
| Engine.Prepare | app/services/search_engine.py:222-231 | priming of a new session, then the top-up; stated by `PrepareExtends`, `PrepareDistinct`, `NewSessionBounded` |
| Engine.PageOf | app/services/search_engine.py:233-259 | the response for a page: the `Window` slice and `PageInfoOf` of the session state |
| Engine.SearchEngine.constructor | app/services/search_engine.py:46-51 | the engine starts with no sessions |
| Engine.SearchEngine.SessionId | app/services/search_engine.py:115-117 | the engine's digest of `user_prompt_day`, so the same triple always names the same session |
| Engine.SearchEngine.FetchMoreResults | app/services/search_engine.py:187-215 | the session's new state and the failure are those of `Fetch` on its old state |
| Engine.SearchEngine.SweepQueries | app/services/search_engine.py:194-212 | the loop ends in the state, `needed` and failure of `Sweep` |
| Engine.SearchEngine.VisitQuery | app/services/search_engine.py:195-212 | one iteration ends in the state, `needed` and failure of `Visit` |
| Engine.SearchEngine.TopUpSession | app/services/search_engine.py:229-231 | the session ends as `TopUp` of its old state |
| Engine.SearchEngine.ServePage | app/services/search_engine.py:233-234 | the page is `PageOf` the session state, which is unchanged; the read cursor moves past the page |
| Engine.SearchEngine.OpenSession | app/services/search_engine.py:222-224 | a fresh session for the queries is stored under the id, nothing else in the dictionary changes |
| Engine.SearchEngine.Refresh | app/services/search_engine.py:222-231 | the session ends as `Prepare` of its old state says |
| Engine.SearchEngine.Serve | app/services/search_engine.py:227-259 | either the search failure with the read cursor unmoved, or `PageOf` the prepared state with the cursor past the page |
| Engine.SearchEngine.SearchExisting | app/services/search_engine.py:227-259 | an existing session is served from its own state |
| Engine.SearchEngine.SearchNew | app/services/search_engine.py:222-259 | a new session under the id is primed and served from the initial state |
| Engine.SearchEngine.SearchWithOffset | app/services/search_engine.py:217-259 | model failure makes no session; otherwise the session under the id is created or reused and served; other sessions are untouched |
| Engine.SearchEngine.GetMoreResults | app/services/search_engine.py:261-297 | an unknown id fails; otherwise the page from the read cursor after the top-up, and the cursor moves past it |

## Left out

- The HTTP transport: aiohttp sessions, the URL, the API key and engine id, and the ten-second timeout. The provider is a function parameter.
- The messages of `GoogleSearchError` and of the logs. A failure is one of `HttpStatus`, `TimedOut`, `ClientFailure` and `Unexpected`. The code's generic handler re-wraps the HTTP-status error, and the message text is not modelled.
- The language model call and its prompt template. Its answer, text or error, is an argument. The `print` and logging of the queries are left out.
- `hashlib.md5`. The digest is a function the engine is given, and the calendar day is an argument.
- `created_at` and `last_accessed`, and the `session_info` timestamps and counters that come from them. Clocks are not modelled.
- The `SearchResult` schema conversion, and the `total_results_served` / `total_results` fields of `session_info`.
- Concurrency between calls on the same session. Each call runs to completion.
- Negative offsets and negative counts. Python slicing would count them from the end. Offsets and counts are `nat`.
- Unicode digits for `\d` and Unicode lower-casing. Only ASCII is modelled.
- A provider that answers the same request differently in one call. The provider is a function.
- `app/main.py` is not part of this model.
