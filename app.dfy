/**
 * The dashboard's fetch orchestration (`fetchData` and `handleApiKeyChange`
 * in src/App.tsx). The dashboard holds its configuration and data slots as
 * fields and shares the metrics service object; the network behind the
 * service is an oracle per endpoint.
 *
 * `Fetch` is the specification: from the configuration, the prior data state
 * and the network it gives the new data state and the queries issued, in
 * order. `Dashboard.FetchData` is proved to follow it, and the lemmas below
 * state what the source promises about it.
 */
module App {
  import opened Wrappers
  import opened Text
  import opened Collections
  import opened Types
  import opened Ahrefs
  import opened BrandManager

  const MissingApiKey := "Please enter your Ahrefs API key"
  const NoBrands := "Please add at least one brand"

  /** The configuration `fetchData` reads. */
  datatype Config = Config(
    apiKey: string,
    brands: seq<Brand>,
    dataSource: DataSource,
    country: string,
    dateFrom: string,
    dateTo: string)

  /** The data slots and UI flags `fetchData` writes. */
  datatype DataState = DataState(
    mentionsData: seq<MentionsOverview>,
    sovData: seq<ShareOfVoice>,
    mentionsHistory: Record<seq<MentionsHistory>>,
    sovHistory: seq<ShareOfVoiceHistory>,
    seoData: Record<SEOMetrics>,
    loading: bool,
    error: Option<string>)

  /**
   * What the network answers each endpoint's queries with. The per-brand
   * history calls and the per-domain metrics calls are separate requests, so
   * their replies are indexed by the call's position as well as its query:
   * two brands of the same name may get different replies.
   */
  datatype Network = Network(
    mentionsOverview: Query -> Reply<seq<MentionsOverview>>,
    sovOverview: Query -> Reply<seq<ShareOfVoice>>,
    mentionsHistory: (nat, Query) -> Reply<seq<MentionsHistory>>,
    sovHistory: Query -> Reply<seq<ShareOfVoiceHistory>>,
    siteMetrics: (nat, Query) -> Reply<SEOMetrics>)

  /** The replies to the `i`-th history call. */
  function HistoryReplies(net: Network, i: nat): Query -> Reply<seq<MentionsHistory>> {
    q => net.mentionsHistory(i, q)
  }

  /** The replies to the `k`-th metrics call. */
  function SiteReplies(net: Network, k: nat): Query -> Reply<SEOMetrics> {
    q => net.siteMetrics(k, q)
  }

  // ---------------------------------------------------------------- brand groups

  /** `bs.map((b) => b.name)`. */
  function Names(bs: seq<Brand>): seq<string> {
    seq(|bs|, i requires 0 <= i < |bs| => bs[i].name)
  }

  /** The comma-joined names of the operator's own brands. */
  function BrandGroup(c: Config): string {
    Join(Names(Targets(c.brands)))
  }

  /** The comma-joined names of the competitors. */
  function CompetitorGroup(c: Config): string {
    Join(Names(Competitors(c.brands)))
  }

  /**
   * When no name contains a comma, each group string splits back into the
   * names of its group in list order, and the names of a list's groups are
   * the groups of its parts.
   */
  lemma GroupStrings(c: Config)
    requires forall b :: b in c.brands ==> ',' !in b.name
    ensures Targets(c.brands) != [] ==> Split(BrandGroup(c)) == Names(Targets(c.brands))
    ensures Competitors(c.brands) != [] ==> Split(CompetitorGroup(c)) == Names(Competitors(c.brands))
    ensures Targets(c.brands) == [] ==> BrandGroup(c) == ""
    ensures Competitors(c.brands) == [] ==> CompetitorGroup(c) == ""
  {
    var ts, cs := Targets(c.brands), Competitors(c.brands);
    if ts != [] {
      assert forall i :: 0 <= i < |ts| ==> ts[i] in c.brands;
      SplitJoin(Names(ts));
    }
    if cs != [] {
      assert forall i :: 0 <= i < |cs| ==> cs[i] in c.brands;
      SplitJoin(Names(cs));
    }
  }

  // ---------------------------------------------------------------- the calls

  function OverviewArgs(c: Config): MentionsOverviewArgs {
    MentionsOverviewArgs(c.dataSource, Some(BrandGroup(c)), Some(CompetitorGroup(c)), Some(c.country), None)
  }

  function SovArgs(c: Config): GroupArgs {
    GroupArgs(c.dataSource, Some(BrandGroup(c)), Some(CompetitorGroup(c)), Some(c.country))
  }

  function HistoryArgs(c: Config, b: Brand): MentionsHistoryArgs {
    MentionsHistoryArgs(c.dataSource, b.name, c.dateFrom, Some(c.dateTo), Some(c.country))
  }

  function SovHistoryArgsOf(c: Config): SovHistoryArgs {
    SovHistoryArgs(c.dataSource, Some(BrandGroup(c)), Some(CompetitorGroup(c)), c.dateFrom, Some(c.dateTo), Some(c.country))
  }

  /** `{ target: brand.domain!, date: dateTo, country: country || undefined }`. */
  function SiteArgs(c: Config, b: Brand): SiteMetricsArgs {
    SiteMetricsArgs(b.domain.GetOr(""), c.dateTo, if c.country == "" then None else Some(c.country))
  }

  function MentionsOverviewQueryOf(c: Config): Query {
    QueryFor(c.apiKey, MentionsOverviewEndpoint, MentionsOverviewParams(OverviewArgs(c)))
  }

  function SovOverviewQueryOf(c: Config): Query {
    QueryFor(c.apiKey, SovOverviewEndpoint, SovOverviewParams(SovArgs(c)))
  }

  function HistoryQueryOf(c: Config, b: Brand): Query {
    QueryFor(c.apiKey, MentionsHistoryEndpoint, MentionsHistoryParams(HistoryArgs(c, b)))
  }

  function SovHistoryQueryOf(c: Config): Query {
    QueryFor(c.apiKey, SovHistoryEndpoint, SovHistoryParams(SovHistoryArgsOf(c)))
  }

  function SiteQueryOf(c: Config, b: Brand): Query {
    QueryFor(c.apiKey, SiteMetricsEndpoint, SiteMetricsParams(SiteArgs(c, b)))
  }

  function MentionsOverviewOf(c: Config, net: Network): Result<seq<MentionsOverview>> {
    ListPayload(Call(c.apiKey, MentionsOverviewEndpoint, MentionsOverviewParams(OverviewArgs(c)), net.mentionsOverview))
  }

  function SovOverviewOf(c: Config, net: Network): Result<seq<ShareOfVoice>> {
    ListPayload(Call(c.apiKey, SovOverviewEndpoint, SovOverviewParams(SovArgs(c)), net.sovOverview))
  }

  function HistoryOf(c: Config, b: Brand, i: nat, net: Network): Result<seq<MentionsHistory>> {
    ListPayload(Call(c.apiKey, MentionsHistoryEndpoint, MentionsHistoryParams(HistoryArgs(c, b)), HistoryReplies(net, i)))
  }

  function SovHistoryOf(c: Config, net: Network): Result<seq<ShareOfVoiceHistory>> {
    ListPayload(Call(c.apiKey, SovHistoryEndpoint, SovHistoryParams(SovHistoryArgsOf(c)), net.sovHistory))
  }

  function SiteOf(c: Config, b: Brand, k: nat, net: Network): Result<Option<SEOMetrics>> {
    RecordPayload(Call(c.apiKey, SiteMetricsEndpoint, SiteMetricsParams(SiteArgs(c, b)), SiteReplies(net, k)))
  }

  // ---------------------------------------------------------------- absorbed failures

  /** The history of brand `b`, asked for by the `i`-th call: the call's list, or `[]` when it failed. */
  function HistoryOutcome(c: Config, b: Brand, i: nat, net: Network): (h: seq<MentionsHistory>)
    ensures HistoryOf(c, b, i, net).Err? ==> h == []
    ensures HistoryOf(c, b, i, net).Ok? ==> h == HistoryOf(c, b, i, net).value
  {
    match HistoryOf(c, b, i, net)
    case Ok(l) => l
    case Err(_) => []
  }

  /** The share-of-voice history: the call's list, or `[]` when the call failed. */
  function SovHistoryOutcome(c: Config, net: Network): (h: seq<ShareOfVoiceHistory>)
    ensures SovHistoryOf(c, net).Err? ==> h == []
    ensures SovHistoryOf(c, net).Ok? ==> h == SovHistoryOf(c, net).value
  {
    match SovHistoryOf(c, net)
    case Ok(l) => l
    case Err(_) => []
  }

  /** The metrics of brand `b`, asked for by the `k`-th call: present only when it succeeded with metrics. */
  function SeoOutcome(c: Config, b: Brand, k: nat, net: Network): (m: Option<SEOMetrics>)
    ensures m.Some? <==> SiteOf(c, b, k, net).Ok? && SiteOf(c, b, k, net).value.Some?
  {
    match SiteOf(c, b, k, net)
    case Ok(m) => m
    case Err(_) => None
  }

  /** The per-brand history results, one per brand in list order. */
  function HistoryResults(c: Config, bs: seq<Brand>, net: Network): (r: seq<(string, seq<MentionsHistory>)>)
    ensures |r| == |bs|
    ensures forall i :: 0 <= i < |bs| ==> r[i] == (bs[i].name, HistoryOutcome(c, bs[i], i, net))
  {
    if bs == [] then []
    else HistoryResults(c, bs[..|bs| - 1], net) + [(bs[|bs| - 1].name, HistoryOutcome(c, bs[|bs| - 1], |bs| - 1, net))]
  }

  /** The history queries, one per brand in list order. */
  function HistoryQueries(c: Config, bs: seq<Brand>): (r: seq<Query>)
    ensures |r| == |bs|
    ensures forall i :: 0 <= i < |bs| ==> r[i] == HistoryQueryOf(c, bs[i])
  {
    if bs == [] then []
    else HistoryQueries(c, bs[..|bs| - 1]) + [HistoryQueryOf(c, bs[|bs| - 1])]
  }

  /** A domain is truthy: present and non-empty. */
  predicate HasDomain(b: Brand) {
    b.domain.Some? && b.domain.value != ""
  }

  /** `brands.filter((b) => b.domain)`. */
  function WithDomains(bs: seq<Brand>): (r: seq<Brand>)
    ensures forall b :: b in r <==> b in bs && HasDomain(b)
    ensures |r| <= |bs|
  {
    if bs == [] then []
    else
      var last := bs[|bs| - 1];
      assert bs == bs[..|bs| - 1] + [last];
      WithDomains(bs[..|bs| - 1]) + (if HasDomain(last) then [last] else [])
  }

  /** The filter keeps list order: it works brand by brand, front to back. */
  lemma {:induction false} WithDomainsKeepsOrder(a: seq<Brand>, b: seq<Brand>)
    ensures WithDomains(a + b) == WithDomains(a) + WithDomains(b)
    decreases |b|
  {
    if b == [] {
      assert a + b == a;
    } else {
      assert (a + b)[..|a + b| - 1] == a + b[..|b| - 1];
      WithDomainsKeepsOrder(a, b[..|b| - 1]);
    }
  }

  /** The per-domain metrics results, one per brand with a domain in list order. */
  function SeoResults(c: Config, ws: seq<Brand>, net: Network): (r: seq<(string, Option<SEOMetrics>)>)
    ensures |r| == |ws|
    ensures forall i :: 0 <= i < |ws| ==> r[i] == (ws[i].name, SeoOutcome(c, ws[i], i, net))
  {
    if ws == [] then []
    else SeoResults(c, ws[..|ws| - 1], net) + [(ws[|ws| - 1].name, SeoOutcome(c, ws[|ws| - 1], |ws| - 1, net))]
  }

  /** The site-metrics queries, one per brand with a domain in list order. */
  function SiteQueries(c: Config, ws: seq<Brand>): (r: seq<Query>)
    ensures |r| == |ws|
    ensures forall i :: 0 <= i < |ws| ==> r[i] == SiteQueryOf(c, ws[i])
  {
    if ws == [] then []
    else SiteQueries(c, ws[..|ws| - 1]) + [SiteQueryOf(c, ws[|ws| - 1])]
  }

  /** The results whose metrics are truthy, unwrapped. */
  function Present(rs: seq<(string, Option<SEOMetrics>)>): seq<(string, SEOMetrics)> {
    if rs == [] then []
    else
      var last := rs[|rs| - 1];
      Present(rs[..|rs| - 1]) + (if last.1.Some? then [(last.0, last.1.value)] else [])
  }

  /** `if (r.data)` keeps exactly the results that carry metrics. */
  lemma {:induction false} PresentPairs(rs: seq<(string, Option<SEOMetrics>)>, k: string, m: SEOMetrics)
    ensures (k, m) in Present(rs) <==> (k, Some(m)) in rs
  {
    if rs != [] {
      PresentPairs(rs[..|rs| - 1], k, m);
      assert rs == rs[..|rs| - 1] + [rs[|rs| - 1]];
    }
  }

  /** `historyMap`: each brand's history written under its name in list order. */
  function HistoryMap(c: Config, net: Network): Record<seq<MentionsHistory>> {
    Collect(HistoryResults(c, c.brands, net))
  }

  /** `seoMap`: each present metrics record written under its brand's name in list order. */
  function SeoMap(c: Config, net: Network): Record<SEOMetrics> {
    Collect(Present(SeoResults(c, WithDomains(c.brands), net)))
  }

  /** The queries issued after both overviews, oldest first. */
  function SecondaryQueries(c: Config): seq<Query> {
    HistoryQueries(c, c.brands) + [SovHistoryQueryOf(c)] + SiteQueries(c, WithDomains(c.brands))
  }

  // ---------------------------------------------------------------- the specification

  /** The new data state and the queries issued, oldest first. */
  datatype Outcome = Outcome(state: DataState, sent: seq<Query>)

  /** Both guards pass: an API key is set and there is at least one brand. */
  predicate GuardsPass(c: Config) {
    c.apiKey != "" && c.brands != []
  }

  /** The guards pass and both mandatory overview calls succeed. */
  predicate Overviewed(c: Config, net: Network) {
    GuardsPass(c) && MentionsOverviewOf(c, net).Ok? && SovOverviewOf(c, net).Ok?
  }

  /** What `fetchData` does to the data state, and the queries it issues. */
  function Fetch(c: Config, s: DataState, net: Network): Outcome {
    if c.apiKey == "" then Outcome(s.(error := Some(MissingApiKey)), [])
    else if c.brands == [] then Outcome(s.(error := Some(NoBrands)), [])
    else
      var started := s.(loading := true, error := None);
      var q1 := MentionsOverviewQueryOf(c);
      match MentionsOverviewOf(c, net)
      case Err(m) => Outcome(started.(error := Some(m), loading := false), [q1])
      case Ok(mentions) =>
        var withMentions := started.(mentionsData := mentions);
        var q2 := SovOverviewQueryOf(c);
        match SovOverviewOf(c, net)
        case Err(m) => Outcome(withMentions.(error := Some(m), loading := false), [q1, q2])
        case Ok(sov) =>
          var ws := WithDomains(c.brands);
          Outcome(
            withMentions.(
              sovData := sov,
              mentionsHistory := HistoryMap(c, net),
              sovHistory := SovHistoryOutcome(c, net),
              seoData := SeoMap(c, net),
              loading := false),
            [q1, q2] + SecondaryQueries(c))
  }

  /** The successful path of `Fetch`, spelled out field by field. */
  lemma FetchAfterOverviews(c: Config, s: DataState, net: Network)
    requires Overviewed(c, net)
    ensures Fetch(c, s, net).state == DataState(
      MentionsOverviewOf(c, net).value, SovOverviewOf(c, net).value, HistoryMap(c, net),
      SovHistoryOutcome(c, net), SeoMap(c, net), false, None)
    ensures Fetch(c, s, net).sent == [MentionsOverviewQueryOf(c), SovOverviewQueryOf(c)] + SecondaryQueries(c)
  {
  }

  // ---------------------------------------------------------------- what the specification promises

  /**
   * No query is issued exactly when a guard fails; then only the error
   * changes, the API-key message winning over the brand message, and
   * `loading` keeps its value.
   */
  lemma GuardsMakeNoCall(c: Config, s: DataState, net: Network)
    ensures Fetch(c, s, net).sent == [] <==> !GuardsPass(c)
    ensures c.apiKey == "" ==> Fetch(c, s, net).state == s.(error := Some(MissingApiKey))
    ensures c.apiKey != "" && c.brands == [] ==> Fetch(c, s, net).state == s.(error := Some(NoBrands))
  {
  }

  /**
   * Once the guards pass, `loading` ends false on every path, and the error
   * is clear exactly when both mandatory calls succeed; otherwise it is the
   * message of the call that failed.
   */
  lemma LoadingEndsAndErrorReflectsOverviews(c: Config, s: DataState, net: Network)
    requires GuardsPass(c)
    ensures !Fetch(c, s, net).state.loading
    ensures Fetch(c, s, net).state.error.None? <==> Overviewed(c, net)
    ensures MentionsOverviewOf(c, net).Err? ==>
      Fetch(c, s, net).state.error == Some(MentionsOverviewOf(c, net).message)
    ensures MentionsOverviewOf(c, net).Ok? && SovOverviewOf(c, net).Err? ==>
      Fetch(c, s, net).state.error == Some(SovOverviewOf(c, net).message)
  {
  }

  /**
   * A failed mentions overview stops the fetch: one query was issued and
   * every data slot keeps its prior value.
   */
  lemma MentionsOverviewFailureKeepsData(c: Config, s: DataState, net: Network)
    requires GuardsPass(c) && MentionsOverviewOf(c, net).Err?
    ensures Fetch(c, s, net).sent == [MentionsOverviewQueryOf(c)]
    ensures Fetch(c, s, net).state.(loading := s.loading, error := s.error) == s
  {
  }

  /**
   * A failed share-of-voice overview stops the fetch after the mentions
   * overview was stored: two queries were issued, and the other slots keep
   * their prior values.
   */
  lemma SovOverviewFailureKeepsLaterData(c: Config, s: DataState, net: Network)
    requires GuardsPass(c) && MentionsOverviewOf(c, net).Ok? && SovOverviewOf(c, net).Err?
    ensures Fetch(c, s, net).sent == [MentionsOverviewQueryOf(c), SovOverviewQueryOf(c)]
    ensures Fetch(c, s, net).state.mentionsData == MentionsOverviewOf(c, net).value
    ensures Fetch(c, s, net).state.(mentionsData := s.mentionsData, loading := s.loading, error := s.error) == s
  {
  }

  /**
   * After both overviews, one history query is issued per brand, then one
   * share-of-voice history query, then one site query per brand with a
   * domain, whatever those calls return.
   */
  lemma QueriesAfterOverviews(c: Config, s: DataState, net: Network)
    requires Overviewed(c, net)
    ensures |Fetch(c, s, net).sent| == 3 + |c.brands| + |WithDomains(c.brands)|
    ensures forall i :: 0 <= i < |c.brands| ==> Fetch(c, s, net).sent[2 + i] == HistoryQueryOf(c, c.brands[i])
    ensures Fetch(c, s, net).sent[2 + |c.brands|] == SovHistoryQueryOf(c)
    ensures forall k :: 0 <= k < |WithDomains(c.brands)| ==>
      Fetch(c, s, net).sent[3 + |c.brands| + k] == SiteQueryOf(c, WithDomains(c.brands)[k])
  {
    FetchAfterOverviews(c, s, net);
    SiteQueriesAtEnd(c, [MentionsOverviewQueryOf(c), SovOverviewQueryOf(c)], SovHistoryQueryOf(c), Fetch(c, s, net).sent);
  }

  /** The site queries sit at the end of the log, in the order of the brands with a domain. */
  lemma SiteQueriesAtEnd(c: Config, overviews: seq<Query>, h: Query, sent: seq<Query>)
    requires |overviews| == 2
    requires sent == overviews + (HistoryQueries(c, c.brands) + [h] + SiteQueries(c, WithDomains(c.brands)))
    ensures forall k :: 0 <= k < |WithDomains(c.brands)| ==> sent[3 + |c.brands| + k] == SiteQueryOf(c, WithDomains(c.brands)[k])
  {
    var ws := WithDomains(c.brands);
    var hs := HistoryQueries(c, c.brands);
    var ss := SiteQueries(c, ws);
    forall k | 0 <= k < |ws|
      ensures sent[3 + |c.brands| + k] == SiteQueryOf(c, ws[k])
    {
      assert sent[3 + |hs| + k] == ss[k];
    }
  }

  /**
   * The mentions history has one key per distinct brand name, targets and
   * competitors alike, in list order; under each name is the history of the
   * last brand of that name, `[]` when its call failed.
   */
  lemma HistoryKeysAndValues(c: Config, s: DataState, net: Network)
    requires Overviewed(c, net)
    ensures Keys(Fetch(c, s, net).state.mentionsHistory) == Distinct(Names(c.brands))
    ensures DistinctKeys(Fetch(c, s, net).state.mentionsHistory)
    ensures forall i :: 0 <= i < |c.brands| && (forall j :: i < j < |c.brands| ==> c.brands[j].name != c.brands[i].name) ==>
      Get(Fetch(c, s, net).state.mentionsHistory, c.brands[i].name) == Some(HistoryOutcome(c, c.brands[i], i, net))
  {
    var results := HistoryResults(c, c.brands, net);
    assert Keys(results) == Names(c.brands);
    CollectKeys(results);
    forall i | 0 <= i < |c.brands| && (forall j :: i < j < |c.brands| ==> c.brands[j].name != c.brands[i].name)
      ensures Get(Collect(results), c.brands[i].name) == Some(HistoryOutcome(c, c.brands[i], i, net))
    {
      CollectLastWins(results, i);
    }
  }

  /** A failed share-of-voice history call leaves `[]` and raises no error. */
  lemma SovHistoryFailureAbsorbed(c: Config, s: DataState, net: Network)
    requires Overviewed(c, net) && SovHistoryOf(c, net).Err?
    ensures Fetch(c, s, net).state.sovHistory == []
    ensures Fetch(c, s, net).state.error == None
  {
  }

  /**
   * A name is a key of the metrics map exactly when some brand of that name
   * with a truthy domain got metrics back; the value stored is that of the
   * last such brand, a later one overwriting an earlier one.
   */
  lemma SeoDataMembership(c: Config, s: DataState, net: Network, k: string)
    requires Overviewed(c, net)
    ensures k in Keys(Fetch(c, s, net).state.seoData) <==>
      exists j :: 0 <= j < |WithDomains(c.brands)| && WithDomains(c.brands)[j].name == k &&
        SeoOutcome(c, WithDomains(c.brands)[j], j, net).Some?
    ensures forall j :: LastWithMetrics(c, net, k, j) ==>
      Get(Fetch(c, s, net).state.seoData, k) == SeoOutcome(c, WithDomains(c.brands)[j], j, net)
  {
    assert Fetch(c, s, net).state.seoData == SeoMap(c, net);
    SeoMapMembership(c, net, k);
    forall j | LastWithMetrics(c, net, k, j)
      ensures Get(SeoMap(c, net), k) == SeoOutcome(c, WithDomains(c.brands)[j], j, net)
    {
      SeoMapLastWins(c, net, j);
    }
  }

  /**
   * The j-th brand with a domain is named `k`, got metrics, and no later
   * brand with a domain named `k` did.
   */
  ghost predicate LastWithMetrics(c: Config, net: Network, k: string, j: int)
  {
    var ws := WithDomains(c.brands);
    0 <= j < |ws| && ws[j].name == k && SeoOutcome(c, ws[j], j, net).Some? &&
    forall j' :: j < j' < |ws| && ws[j'].name == k ==> SeoOutcome(c, ws[j'], j', net).None?
  }

  lemma SeoMapMembership(c: Config, net: Network, k: string)
    ensures k in Keys(SeoMap(c, net)) <==>
      exists j :: 0 <= j < |WithDomains(c.brands)| && WithDomains(c.brands)[j].name == k &&
        SeoOutcome(c, WithDomains(c.brands)[j], j, net).Some?
  {
    assert SeoMap(c, net) == Collect(Present(SeoResults(c, WithDomains(c.brands), net)));
    SeoKeysOver(c, WithDomains(c.brands), net, k);
  }

  /** Membership in the collected metrics, for any list of brands with domains. */
  lemma SeoKeysOver(c: Config, ws: seq<Brand>, net: Network, k: string)
    ensures k in Keys(Collect(Present(SeoResults(c, ws, net)))) <==>
      exists j :: 0 <= j < |ws| && ws[j].name == k && SeoOutcome(c, ws[j], j, net).Some?
  {
    var rs := SeoResults(c, ws, net);
    PresentKeys(rs, k);
    if k in Keys(Collect(Present(rs))) {
      var j :| 0 <= j < |rs| && rs[j].0 == k && rs[j].1.Some?;
      assert rs[j] == (ws[j].name, SeoOutcome(c, ws[j], j, net));
    }
    if exists j :: 0 <= j < |ws| && ws[j].name == k && SeoOutcome(c, ws[j], j, net).Some? {
      var j :| 0 <= j < |ws| && ws[j].name == k && SeoOutcome(c, ws[j], j, net).Some?;
      assert rs[j] == (ws[j].name, SeoOutcome(c, ws[j], j, net));
    }
  }

  /** The metrics map holds, under a name, the last metrics fetched for it. */
  lemma SeoMapLastWins(c: Config, net: Network, j: int)
    requires 0 <= j < |WithDomains(c.brands)|
    requires LastWithMetrics(c, net, WithDomains(c.brands)[j].name, j)
    ensures Get(SeoMap(c, net), WithDomains(c.brands)[j].name) == SeoOutcome(c, WithDomains(c.brands)[j], j, net)
  {
    var ws := WithDomains(c.brands);
    var results := SeoResults(c, ws, net);
    assert results[j] == (ws[j].name, SeoOutcome(c, ws[j], j, net));
    forall j' | j < j' < |results| && results[j'].0 == results[j].0
      ensures results[j'].1.None?
    {
      assert results[j'] == (ws[j'].name, SeoOutcome(c, ws[j'], j', net));
    }
    PresentLastWins(results, j);
  }

  /**
   * In the map built from the results, a name holds the metrics of its last
   * result that carries metrics.
   */
  lemma {:induction false} PresentLastWins(rs: seq<(string, Option<SEOMetrics>)>, i: nat)
    requires i < |rs| && rs[i].1.Some?
    requires forall j :: i < j < |rs| && rs[j].0 == rs[i].0 ==> rs[j].1.None?
    ensures Get(Collect(Present(rs)), rs[i].0) == rs[i].1
  {
    var p := rs[..|rs| - 1];
    var last := rs[|rs| - 1];
    assert Present(rs) == Present(p) + (if last.1.Some? then [(last.0, last.1.value)] else []);
    if i == |rs| - 1 {
      CollectSnoc(Present(p), (last.0, last.1.value));
      PutGet(Collect(Present(p)), last.0, last.1.value, last.0);
    } else {
      assert p[i] == rs[i];
      PresentLastWins(p, i);
      if last.1.Some? {
        assert last.0 != rs[i].0;
        CollectSnoc(Present(p), (last.0, last.1.value));
        PutGet(Collect(Present(p)), last.0, last.1.value, rs[i].0);
      } else {
        assert Present(rs) == Present(p);
      }
    }
  }

  /** A name is a key of the collected metrics exactly when some result of that name carries metrics. */
  lemma PresentKeys(rs: seq<(string, Option<SEOMetrics>)>, k: string)
    ensures k in Keys(Collect(Present(rs))) <==> exists i :: 0 <= i < |rs| && rs[i].0 == k && rs[i].1.Some?
  {
    var present := Present(rs);
    CollectKeys(present);
    if k in Keys(Collect(present)) {
      var m := Get(Collect(present), k).value;
      CollectFrom(present, (k, m));
      PresentPairs(rs, k, m);
      var i :| 0 <= i < |rs| && rs[i] == (k, Some(m));
    }
    if exists i :: 0 <= i < |rs| && rs[i].0 == k && rs[i].1.Some? {
      var i :| 0 <= i < |rs| && rs[i].0 == k && rs[i].1.Some?;
      var m := rs[i].1.value;
      assert rs[i] == (k, Some(m));
      PresentPairs(rs, k, m);
      var i' :| 0 <= i' < |present| && present[i'] == (k, m);
      assert Keys(present)[i'] == k;
    }
  }

  /**
   * Every site query carries the end date, always asks for subdomains, and
   * carries the country lower-cased exactly when one is configured.
   */
  lemma SiteQueryParams(c: Config, b: Brand)
    ensures SiteQueryOf(c, b).params ==
      Optional("target", Some(b.domain.GetOr(""))) + Optional("date", Some(c.dateTo))
      + [("mode", "subdomains")] + CountryParam(Some(c.country))
  {
    SiteMetricsQuery(SiteArgs(c, b));
  }

  /** `seoResults.forEach((r) => { if (r.data) seoMap[r.brand] = r.data; })`. */
  method CollectPresent(seoResults: seq<(string, Option<SEOMetrics>)>) returns (seoMap: Record<SEOMetrics>)
    ensures seoMap == Collect(Present(seoResults))
  {
    seoMap := [];
    var n := 0;
    while n < |seoResults|
      invariant 0 <= n <= |seoResults|
      invariant seoMap == Collect(Present(seoResults[..n]))
    {
      assert seoResults[..n + 1][..n] == seoResults[..n];
      ghost var before := Present(seoResults[..n]);
      if seoResults[n].1.Some? {
        ghost var entry := (seoResults[n].0, seoResults[n].1.value);
        assert Present(seoResults[..n + 1]) == before + [entry];
        assert (before + [entry])[..|before|] == before;
        seoMap := Put(seoMap, seoResults[n].0, seoResults[n].1.value);
      } else {
        assert Present(seoResults[..n + 1]) == before;
      }
      n := n + 1;
    }
    assert seoResults[..n] == seoResults;
  }

  // ---------------------------------------------------------------- the dashboard

  class Dashboard {
    var apiKey: string
    var brands: seq<Brand>
    var dataSource: DataSource
    var country: string
    var dateFrom: string
    var dateTo: string

    var mentionsData: seq<MentionsOverview>
    var sovData: seq<ShareOfVoice>
    var mentionsHistory: Record<seq<MentionsHistory>>
    var sovHistory: seq<ShareOfVoiceHistory>
    var seoData: Record<SEOMetrics>
    var loading: bool
    var error: Option<string>

    /** The shared service object the calls go through. */
    const service: AhrefsService

    /** The dashboard's key and the service's key agree. */
    ghost predicate Valid()
      reads this, service
    {
      service.apiKey == apiKey
    }

    function CurrentConfig(): Config
      reads this
    {
      Config(apiKey, brands, dataSource, country, dateFrom, dateTo)
    }

    function CurrentState(): DataState
      reads this
    {
      DataState(mentionsData, sovData, mentionsHistory, sovHistory, seoData, loading, error)
    }

    /**
     * The initial state: no key, no brands, ChatGPT as data source, no
     * country, empty data. The default date range is a parameter.
     */
    constructor (dateFrom: string, dateTo: string)
      ensures Valid() && fresh(service) && service.sent == []
      ensures CurrentConfig() == Config("", [], ChatGpt, "", dateFrom, dateTo)
      ensures CurrentState() == DataState([], [], [], [], [], false, None)
    {
      apiKey, brands, dataSource, country := "", [], ChatGpt, "";
      this.dateFrom, this.dateTo := dateFrom, dateTo;
      mentionsData, sovData, mentionsHistory, sovHistory, seoData := [], [], [], [], [];
      loading, error := false, None;
      service := new AhrefsService();
    }

    /** `handleApiKeyChange`: the dashboard and the service take the new key. */
    method HandleApiKeyChange(key: string)
      modifies this`apiKey, service`apiKey
      ensures apiKey == key && Valid()
    {
      apiKey := key;
      service.SetApiKey(key);
    }

    /** `fetchData`, with the network as an oracle. */
    method FetchData(net: Network)
      requires Valid()
      modifies this, service`sent
      ensures Valid()
      ensures CurrentConfig() == old(CurrentConfig())
      ensures CurrentState() == Fetch(old(CurrentConfig()), old(CurrentState()), net).state
      ensures service.sent == old(service.sent) + Fetch(old(CurrentConfig()), old(CurrentState()), net).sent
    {
      var c := CurrentConfig();
      ghost var s0 := CurrentState();
      if apiKey == "" {
        error := Some(MissingApiKey);
        assert CurrentState() == Fetch(c, s0, net).state;
        return;
      }
      if |brands| == 0 {
        error := Some(NoBrands);
        assert CurrentState() == Fetch(c, s0, net).state;
        return;
      }
      ghost var sent0 := service.sent;
      loading := true;
      error := None;
      FetchAfterGuards(c, s0, sent0, net);
    }

    /** `fetchData` once both guards pass: the two mandatory overviews, then the rest. */
    method FetchAfterGuards(c: Config, ghost s0: DataState, ghost sent0: seq<Query>, net: Network)
      requires GuardsPass(c) && service.apiKey == c.apiKey && service.sent == sent0
      requires CurrentState() == s0.(loading := true, error := None)
      modifies this`mentionsData, this`sovData, this`mentionsHistory, this`sovHistory, this`seoData,
        this`loading, this`error, service`sent
      ensures CurrentState() == Fetch(c, s0, net).state
      ensures service.sent == sent0 + Fetch(c, s0, net).sent
    {
      // The group strings are `BrandGroup(c)` and `CompetitorGroup(c)`.
      var mentionsResult := service.GetMentionsOverview(OverviewArgs(c), net.mentionsOverview);
      assert mentionsResult == MentionsOverviewOf(c, net);
      if mentionsResult.Err? {
        error := Some(mentionsResult.message);
        loading := false;
        MentionsOverviewFailureKeepsData(c, s0, net);
        return;
      }
      mentionsData := mentionsResult.value;

      var sovResult := service.GetShareOfVoiceOverview(SovArgs(c), net.sovOverview);
      assert sovResult == SovOverviewOf(c, net);
      if sovResult.Err? {
        error := Some(sovResult.message);
        loading := false;
        SovOverviewFailureKeepsLaterData(c, s0, net);
        AppendAssoc(sent0, [MentionsOverviewQueryOf(c)], [SovOverviewQueryOf(c)]);
        assert [MentionsOverviewQueryOf(c)] + [SovOverviewQueryOf(c)] == [MentionsOverviewQueryOf(c), SovOverviewQueryOf(c)];
        return;
      }
      sovData := sovResult.value;

      FinishFetch(c, s0, sent0, net);
    }

    /** The rest of `fetchData` once both overviews are stored, up to its `finally`. */
    method FinishFetch(c: Config, ghost s0: DataState, ghost sent0: seq<Query>, net: Network)
      requires Overviewed(c, net) && service.apiKey == c.apiKey
      requires CurrentState() == s0.(mentionsData := MentionsOverviewOf(c, net).value,
        sovData := SovOverviewOf(c, net).value, loading := true, error := None)
      requires service.sent == sent0 + [MentionsOverviewQueryOf(c)] + [SovOverviewQueryOf(c)]
      modifies this`mentionsHistory, this`sovHistory, this`seoData, this`loading, service`sent
      ensures CurrentState() == Fetch(c, s0, net).state
      ensures service.sent == sent0 + Fetch(c, s0, net).sent
    {
      FetchSecondary(c, net);
      loading := false;
      FetchAfterOverviews(c, s0, net);
      var q1, q2 := MentionsOverviewQueryOf(c), SovOverviewQueryOf(c);
      assert [q1] + [q2] == [q1, q2];
      AppendAssoc(sent0, [q1], [q2]);
      AppendAssoc(sent0, [q1, q2], SecondaryQueries(c));
    }

    /**
     * The calls after both overviews: the per-brand histories, the
     * share-of-voice history and the per-domain metrics, each of whose
     * failures is absorbed.
     */
    method FetchSecondary(c: Config, net: Network)
      requires c.apiKey != "" && service.apiKey == c.apiKey
      modifies this`mentionsHistory, this`sovHistory, this`seoData, service`sent
      ensures mentionsHistory == HistoryMap(c, net)
      ensures sovHistory == SovHistoryOutcome(c, net)
      ensures seoData == SeoMap(c, net)
      ensures service.sent == old(service.sent) + SecondaryQueries(c)
    {
      ghost var sent0 := service.sent;
      mentionsHistory := FetchHistories(c, net);

      // The share-of-voice history; a failure becomes an empty list.
      var sovHistResult := service.GetShareOfVoiceHistory(SovHistoryArgsOf(c), net.sovHistory);
      assert sovHistResult == SovHistoryOf(c, net);
      sovHistory := if sovHistResult.Ok? then sovHistResult.value else [];

      seoData := FetchSeo(c, net);
      AppendAssoc(sent0, HistoryQueries(c, c.brands), [SovHistoryQueryOf(c)]);
      AppendAssoc(sent0, HistoryQueries(c, c.brands) + [SovHistoryQueryOf(c)], SiteQueries(c, WithDomains(c.brands)));
    }

    /** The per-brand history calls of `fetchData` and the map built from their results. */
    method FetchHistories(c: Config, net: Network) returns (historyMap: Record<seq<MentionsHistory>>)
      requires c.apiKey != "" && service.apiKey == c.apiKey
      modifies service`sent
      ensures historyMap == HistoryMap(c, net)
      ensures service.sent == old(service.sent) + HistoryQueries(c, c.brands)
    {
      // One call per brand; a failure becomes an empty history.
      var historyResults: seq<(string, seq<MentionsHistory>)> := [];
      var i := 0;
      while i < |c.brands|
        invariant 0 <= i <= |c.brands|
        invariant service.apiKey == c.apiKey
        invariant historyResults == HistoryResults(c, c.brands[..i], net)
        invariant service.sent == old(service.sent) + HistoryQueries(c, c.brands[..i])
      {
        var brand := c.brands[i];
        var result := service.GetMentionsHistory(HistoryArgs(c, brand), HistoryReplies(net, i));
        var data := if result.Ok? then result.value else [];
        historyResults := historyResults + [(brand.name, data)];
        assert c.brands[..i + 1][..i] == c.brands[..i];
        assert HistoryQueries(c, c.brands[..i + 1]) == HistoryQueries(c, c.brands[..i]) + [HistoryQueryOf(c, brand)];
        i := i + 1;
      }
      assert c.brands[..i] == c.brands;

      historyMap := CollectInto(historyResults);
    }

    /** The per-domain metrics calls of `fetchData` and the map built from their results. */
    method FetchSeo(c: Config, net: Network) returns (seoMap: Record<SEOMetrics>)
      requires c.apiKey != "" && service.apiKey == c.apiKey
      modifies service`sent
      ensures seoMap == SeoMap(c, net)
      ensures service.sent == old(service.sent) + SiteQueries(c, WithDomains(c.brands))
    {
      // One call per brand with a domain; failures and empty metrics are dropped.
      var withDomains := WithDomains(c.brands);
      var seoResults: seq<(string, Option<SEOMetrics>)> := [];
      var k := 0;
      while k < |withDomains|
        invariant 0 <= k <= |withDomains|
        invariant service.apiKey == c.apiKey
        invariant seoResults == SeoResults(c, withDomains[..k], net)
        invariant service.sent == old(service.sent) + SiteQueries(c, withDomains[..k])
      {
        var brand := withDomains[k];
        var result := service.GetSEOMetrics(SiteArgs(c, brand), SiteReplies(net, k));
        var data := if result.Ok? then result.value else None;
        seoResults := seoResults + [(brand.name, data)];
        assert withDomains[..k + 1][..k] == withDomains[..k];
        assert SiteQueries(c, withDomains[..k + 1]) == SiteQueries(c, withDomains[..k]) + [SiteQueryOf(c, brand)];
        k := k + 1;
      }
      assert withDomains[..k] == withDomains;

      seoMap := CollectPresent(seoResults);
    }
  }
}
