/**
 * The SEO-versus-LLM panel: for every brand with search metrics, its organic
 * traffic, the traffic's value in dollars, its LLM mention count and its
 * organic keywords, with totals over all brands.
 */
module SeoComparisonChart {
  import opened Wrappers
  import opened Text
  import opened Collections
  import opened Types

  /** One brand's bars. */
  datatype Row = Row(name: string, organicTraffic: int, trafficValue: real, llmMentions: int, organicKeywords: int)

  /** The summary cards. */
  datatype Totals = Totals(traffic: int, value: real, mentions: int)

  datatype View = Loading | NoComparison | Comparison(rows: seq<Row>, totals: Totals)

  /** `n || 0` on an optional count: a missing count reads as 0, a present one as itself. */
  function OrZero(n: Option<int>): (r: int)
    ensures r == n.GetOr(0)
  {
    if n.Some? && n.value != 0 then n.value else 0
  }

  /** `cost ? cost / 100 : 0`: cents to dollars, a missing cost being worth nothing. */
  function TrafficValue(cost: Option<int>): (r: real)
    ensures r * 100.0 == cost.GetOr(0) as real
  {
    if cost.Some? && cost.value != 0 then cost.value as real / 100.0 else 0.0
  }

  /** `llmData.find((l) => l.brand.toLowerCase() === brand.toLowerCase())`. */
  function FindLlm(llm: seq<MentionsOverview>, brand: string): Option<MentionsOverview> {
    if llm == [] then None
    else if EqualsIgnoreCase(llm[0].brand, brand) then Some(llm[0])
    else FindLlm(llm[1..], brand)
  }

  /**
   * The search finds nothing exactly when no overview's brand equals `brand`
   * ignoring case, and otherwise finds the first that does.
   */
  lemma {:induction false} FindLlmFirstMatch(llm: seq<MentionsOverview>, brand: string)
    ensures FindLlm(llm, brand).None? <==> forall k :: 0 <= k < |llm| ==> !EqualsIgnoreCase(llm[k].brand, brand)
    ensures forall k ::
      (0 <= k < |llm| && EqualsIgnoreCase(llm[k].brand, brand) &&
       forall k' :: 0 <= k' < k ==> !EqualsIgnoreCase(llm[k'].brand, brand)) ==>
      FindLlm(llm, brand) == Some(llm[k])
  {
    if llm != [] && !EqualsIgnoreCase(llm[0].brand, brand) {
      var t := llm[1..];
      FindLlmFirstMatch(t, brand);
      assert forall k :: 1 <= k < |llm| ==> t[k - 1] == llm[k];
      forall k | 0 <= k < |llm| && EqualsIgnoreCase(llm[k].brand, brand) &&
        (forall k' :: 0 <= k' < k ==> !EqualsIgnoreCase(llm[k'].brand, brand))
        ensures FindLlm(llm, brand) == Some(llm[k])
      {
        assert k > 0;
        forall k' | 0 <= k' < k - 1 ensures !EqualsIgnoreCase(t[k'].brand, brand) {
          assert t[k'] == llm[k' + 1];
        }
      }
    }
  }

  /** Brands that differ only in letter case find the same overview. */
  lemma {:induction false} FindLlmIgnoresCase(llm: seq<MentionsOverview>, a: string, b: string)
    requires EqualsIgnoreCase(a, b)
    ensures FindLlm(llm, a) == FindLlm(llm, b)
  {
    if llm != [] {
      FindLlmIgnoresCase(llm[1..], a, b);
    }
  }

  /** One brand's row, from its metrics (possibly missing) and its matching overview. */
  function RowFor(seoData: Record<SEOMetrics>, llm: seq<MentionsOverview>, brand: string): Row {
    var seo := Get(seoData, brand);
    var found := FindLlm(llm, brand);
    Row(brand,
        if seo.Some? then OrZero(seo.value.orgTraffic) else 0,
        if seo.Some? then TrafficValue(seo.value.orgCost) else 0.0,
        if found.Some? && found.value.total != 0 then found.value.total else 0,
        if seo.Some? then OrZero(seo.value.orgKeywords) else 0)
  }

  /** `brands.map(...)`: one row per metrics key, in key order. */
  function ComparisonData(seoData: Record<SEOMetrics>, llm: seq<MentionsOverview>): seq<Row> {
    var brands := Keys(seoData);
    seq(|brands|, i requires 0 <= i < |brands| => RowFor(seoData, llm, brands[i]))
  }

  /**
   * Row `i` is the `i`-th brand with metrics; its traffic, keywords and
   * traffic value (in dollars) are that brand's, missing ones as 0, and its
   * mentions are the total of the first overview whose brand equals it
   * ignoring case, or 0 when none does.
   */
  lemma ComparisonRow(seoData: Record<SEOMetrics>, llm: seq<MentionsOverview>, i: nat)
    requires i < |seoData|
    requires DistinctKeys(seoData)
    ensures |ComparisonData(seoData, llm)| == |seoData|
    ensures ComparisonData(seoData, llm)[i].name == seoData[i].0
    ensures ComparisonData(seoData, llm)[i].organicTraffic == seoData[i].1.orgTraffic.GetOr(0)
    ensures ComparisonData(seoData, llm)[i].organicKeywords == seoData[i].1.orgKeywords.GetOr(0)
    ensures ComparisonData(seoData, llm)[i].trafficValue * 100.0 == seoData[i].1.orgCost.GetOr(0) as real
    ensures (forall k :: 0 <= k < |llm| ==> !EqualsIgnoreCase(llm[k].brand, seoData[i].0)) ==>
      ComparisonData(seoData, llm)[i].llmMentions == 0
    ensures forall k ::
      (0 <= k < |llm| && EqualsIgnoreCase(llm[k].brand, seoData[i].0) &&
       forall k' :: 0 <= k' < k ==> !EqualsIgnoreCase(llm[k'].brand, seoData[i].0)) ==>
      ComparisonData(seoData, llm)[i].llmMentions == llm[k].total
  {
    var b := seoData[i].0;
    GetDistinct(seoData, i);
    FindLlmFirstMatch(llm, b);
  }

  function TrafficColumn(rows: seq<Row>): seq<int> {
    seq(|rows|, i requires 0 <= i < |rows| => rows[i].organicTraffic)
  }

  function ValueColumn(rows: seq<Row>): seq<real> {
    seq(|rows|, i requires 0 <= i < |rows| => rows[i].trafficValue)
  }

  function MentionsColumn(rows: seq<Row>): seq<int> {
    seq(|rows|, i requires 0 <= i < |rows| => rows[i].llmMentions)
  }

  /** The three `reduce` sums over the rows. */
  function TotalsOf(rows: seq<Row>): Totals {
    Totals(Sum(TrafficColumn(rows)), SumReal(ValueColumn(rows)), Sum(MentionsColumn(rows)))
  }

  /**
   * With non-negative traffic and mention counts, every row's figure is part
   * of its card's total.
   */
  lemma {:induction false} TotalsBoundRows(rows: seq<Row>, i: nat)
    requires forall j :: 0 <= j < |rows| ==> rows[j].organicTraffic >= 0 && rows[j].llmMentions >= 0
    requires i < |rows|
    ensures 0 <= rows[i].organicTraffic <= TotalsOf(rows).traffic
    ensures 0 <= rows[i].llmMentions <= TotalsOf(rows).mentions
  {
    SumBoundsElements(TrafficColumn(rows), i);
    SumBoundsElements(MentionsColumn(rows), i);
  }

  function SeoView(seoData: Record<SEOMetrics>, llm: seq<MentionsOverview>, loading: bool): View {
    if loading then Loading
    else if |Keys(seoData)| == 0 && |llm| == 0 then NoComparison
    else
      var rows := ComparisonData(seoData, llm);
      Comparison(rows, TotalsOf(rows))
  }

  /**
   * Loading wins; the panel is empty exactly when there are neither metrics
   * nor overviews; overviews without any metrics give a comparison with no
   * rows and zero totals.
   */
  lemma SeoViewCases(seoData: Record<SEOMetrics>, llm: seq<MentionsOverview>, loading: bool)
    ensures loading <==> SeoView(seoData, llm, loading) == Loading
    ensures SeoView(seoData, llm, loading) == NoComparison <==> !loading && seoData == [] && llm == []
    ensures !loading && seoData == [] && llm != [] ==>
      SeoView(seoData, llm, loading) == Comparison([], Totals(0, 0.0, 0))
    ensures SeoView(seoData, llm, loading).Comparison? ==> |SeoView(seoData, llm, loading).rows| == |seoData|
  {
    if !loading && seoData == [] && llm != [] {
      assert ComparisonData(seoData, llm) == [];
      assert TrafficColumn([]) == [] && ValueColumn([]) == [] && MentionsColumn([]) == [];
    }
  }
}
