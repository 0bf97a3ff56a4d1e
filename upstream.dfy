/**
 * The upstream search call: the query augmentation of `build_query` and the
 * shape of `call_google_search_api`. The provider itself (transport, status
 * codes, timeouts) is not modelled; it is a function the caller supplies.
 */
module Upstream {
  import opened Wrappers
  import opened Text

  /** One entry of the provider's `items`, its missing fields already defaulted to "". */
  datatype RawItem = RawItem(title: string, link: string, snippet: string, displayLink: string)

  /** A result item; `rank` is the 1-based position in its query's result stream. */
  datatype Item = Item(title: string, link: string, snippet: string, source: string, rank: int)

  /**
   * A search as the service asks for it: the query, the start offset and the
   * count. The `q` parameter that goes on the wire is `BuildQuery(query)`;
   * since that augmentation is injective (`WireInjective`), a provider keyed
   * on the request answers exactly as one keyed on the wire parameters.
   */
  datatype Request = Request(query: string, start: int, num: int)

  /** The ways a call fails; each is raised to the caller as a search error. */
  datatype UpstreamFailure = HttpStatus(status: int) | TimedOut | ClientFailure | Unexpected

  /** The provider: what a request yields, items or a failure. */
  type Provider = Request -> Result<seq<RawItem>, UpstreamFailure>

  /** The provider returns at most this many items per call. */
  const MaxBatch := 10

  /** Domains of aggregator sites excluded from every search. */
  const AggregatorSites: seq<string> := [
    "justdial.com", "sulekha.com", "indiamart.com", "yellowpages.in", "yelp.com",
    "tripadvisor.in", "zomato.com", "magicbricks.com", "99acres.com", "housing.com",
    "makemytrip.com", "goibibo.com", "trivago.in", "booking.com", "airbnb.com", "hotels.com",
    "trustpilot.com", "glassdoor.com", "g2.com", "clutch.co", "upcity.com", "designrush.com",
    "comparisun.com", "bestfirms.com", "businesslist.io", "goodfirms.co", "capterra.in",
    "topdevelopers.co", "serchen.com", "reddit.com"
  ]

  /** The low-value term excluded from every search. */
  const ExcludeKeyword := "\"Top\""

  /** One `-site:` clause per site, in order. */
  function SiteClauses(sites: seq<string>): (r: seq<string>)
    ensures |r| == |sites|
  {
    seq(|sites|, i requires 0 <= i < |sites| => "-site:" + sites[i])
  }

  /** `build_query`: the query, then one `-site:` clause per aggregator, then `-"Top"`. */
  function BuildQuery(query: string): string
  {
    Augment(query, AggregatorSites)
  }

  /** The augmentation of `query` with the exclusions of `sites` and of the keyword. */
  function Augment(query: string, sites: seq<string>): string
  {
    query + Suffix(sites)
  }

  /** The text `build_query` appends: a blank, the site clauses joined by blanks, a blank and `-"Top"`. */
  function Suffix(sites: seq<string>): string
  {
    " " + Join(SiteClauses(sites), ' ') + " -" + ExcludeKeyword
  }

  /** The clauses appended to a query, in order. */
  function ExclusionClauses(sites: seq<string>): seq<string>
  {
    SiteClauses(sites) + ["-" + ExcludeKeyword]
  }

  /** `max(1, min(10, num))` */
  function Clamp(num: int): (r: int)
    ensures 1 <= r <= MaxBatch
    ensures 1 <= num <= MaxBatch ==> r == num
    ensures num > MaxBatch ==> r == MaxBatch
    ensures num < 1 ==> r == 1
  {
    Max(1, Min(MaxBatch, num))
  }

  /** The items of a page that starts at `start`, ranked from `start + 1`. */
  function ToItems(raw: seq<RawItem>, start: int): (items: seq<Item>)
    ensures |items| == |raw|
  {
    if |raw| == 0 then []
    else
      [Item(raw[0].title, raw[0].link, raw[0].snippet, raw[0].displayLink, start + 1)] + ToItems(raw[1..], start + 1)
  }

  /** The item at position `i` of a page carries the provider's fields and rank `start + i + 1`. */
  lemma {:induction false} ToItemsAt(raw: seq<RawItem>, start: int, i: nat)
    requires i < |raw|
    ensures ToItems(raw, start)[i] == Item(raw[i].title, raw[i].link, raw[i].snippet, raw[i].displayLink, start + i + 1)
  {
    if i > 0 {
      ToItemsAt(raw[1..], start + 1, i - 1);
    }
  }

  /** `call_google_search_api(query, start, num)`, with the provider as a parameter. */
  function SearchApi(provider: Provider, query: string, start: int, num: int): Result<seq<Item>, UpstreamFailure>
  {
    match provider(Request(query, start, Clamp(num)))
    case Success(raw) => Success(ToItems(raw, start))
    case Failure(e) => Failure(e)
  }

  /**
   * The call asks for the query with the count clamped into [1, 10];
   * it fails exactly when the provider does, and otherwise returns one item
   * per provider item, same link, ranked by position.
   */
  lemma SearchApiResult(provider: Provider, query: string, start: int, num: int)
    ensures var response := provider(Request(query, start, Clamp(num)));
      && (SearchApi(provider, query, start, num).Failure? <==> response.Failure?)
      && (response.Failure? ==> SearchApi(provider, query, start, num).error == response.error)
      && (response.Success? ==>
            var items := SearchApi(provider, query, start, num).value;
            && |items| == |response.value|
            && forall i :: 0 <= i < |items| ==> items[i].link == response.value[i].link && items[i].rank == start + i + 1)
  {
    var response := provider(Request(query, start, Clamp(num)));
    if response.Success? {
      forall i | 0 <= i < |response.value|
        ensures ToItems(response.value, start)[i].link == response.value[i].link
        ensures ToItems(response.value, start)[i].rank == start + i + 1
      {
        ToItemsAt(response.value, start, i);
      }
    }
  }

  /** The augmented query is the raw query, a blank, then the fixed clauses joined by blanks. */
  lemma SuffixShape(sites: seq<string>)
    requires |sites| >= 1
    ensures Suffix(sites) == " " + Join(ExclusionClauses(sites), ' ')
  {
    JoinAppend(SiteClauses(sites), "-" + ExcludeKeyword, ' ');
  }

  /** The augmentation does not depend on the query: it keeps the query as a prefix and appends the same text. */
  lemma BuildQueryIndependent(a: string, b: string)
    ensures |BuildQuery(a)| == |a| + |Suffix(AggregatorSites)|
    ensures BuildQuery(a)[..|a|] == a
    ensures BuildQuery(a)[|a|..] == BuildQuery(b)[|b|..]
  {
    var tail := Suffix(AggregatorSites);
    assert BuildQuery(a) == a + tail;
    assert BuildQuery(b) == b + tail;
  }

  /** Every clause of `sites` is `-site:` followed by a site, so it holds a blank only if the site does. */
  lemma SiteClausesNoBlank(sites: seq<string>)
    requires forall i :: 0 <= i < |sites| ==> ' ' !in sites[i]
    ensures forall i :: 0 <= i < |SiteClauses(sites)| ==> ' ' !in SiteClauses(sites)[i]
  {
    forall i | 0 <= i < |SiteClauses(sites)|
      ensures ' ' !in SiteClauses(sites)[i]
    {
      assert SiteClauses(sites)[i] == "-site:" + sites[i];
    }
  }

  /** Split at blanks, the appended text is exactly the exclusion clauses, one per site plus the keyword. */
  lemma SuffixClauses(sites: seq<string>)
    requires |sites| >= 1
    requires forall i :: 0 <= i < |sites| ==> ' ' !in sites[i]
    ensures Split(Suffix(sites)[1..], ' ') == ExclusionClauses(sites)
    ensures |ExclusionClauses(sites)| == |sites| + 1
  {
    SuffixShape(sites);
    SiteClausesNoBlank(sites);
    var xs := ExclusionClauses(sites);
    forall i | 0 <= i < |xs|
      ensures ' ' !in xs[i]
    {
      if i < |sites| {
        assert xs[i] == SiteClauses(sites)[i];
      } else {
        assert xs[i] == "-" + ExcludeKeyword;
      }
    }
    assert Suffix(sites)[1..] == Join(xs, ' ');
    SplitJoin(xs, ' ');
  }

  /** No aggregator domain holds a blank. */
  lemma AggregatorSitesNoBlank()
    ensures forall i :: 0 <= i < |AggregatorSites| ==> ' ' !in AggregatorSites[i]
  {
  }

  /** Every augmented query is the raw query, a blank and the exclusion clauses joined by blanks. */
  lemma BuildQueryShape(query: string)
    ensures BuildQuery(query) == query + " " + Join(ExclusionClauses(AggregatorSites), ' ')
  {
    AugmentShape(query, AggregatorSites);
  }

  /** The augmentation with any non-empty list of sites: the query, a blank and the clauses joined by blanks. */
  lemma AugmentShape(query: string, sites: seq<string>)
    requires |sites| >= 1
    ensures Augment(query, sites) == query + " " + Join(ExclusionClauses(sites), ' ')
  {
    SuffixShape(sites);
  }

  /** Those clauses are 31: one per aggregator site, then the keyword; splitting them at blanks recovers them. */
  lemma ExclusionClausesSplit()
    ensures Split(Join(ExclusionClauses(AggregatorSites), ' '), ' ') == ExclusionClauses(AggregatorSites)
    ensures |ExclusionClauses(AggregatorSites)| == 31
  {
    AggregatorSitesNoBlank();
    SuffixClauses(AggregatorSites);
    SuffixShape(AggregatorSites);
  }

  /** Different queries are sent as different texts. */
  lemma BuildQueryInjective(a: string, b: string)
    requires BuildQuery(a) == BuildQuery(b)
    ensures a == b
  {
    BuildQueryIndependent(a, b);
    BuildQueryIndependent(b, a);
  }

  /** Two requests that put the same parameters on the wire are the same request. */
  lemma WireInjective(r1: Request, r2: Request)
    requires BuildQuery(r1.query) == BuildQuery(r2.query)
    requires r1.start == r2.start && r1.num == r2.num
    ensures r1 == r2
  {
    BuildQueryInjective(r1.query, r2.query);
  }
}
