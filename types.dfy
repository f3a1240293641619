/**
 * The dashboard's data types (src/types/index.ts). Counts are integers; a
 * share of voice is a real fraction; absent JSON members are `None`.
 */
module Types {
  import opened Wrappers

  /** The answer engines the upstream metrics API can be asked about. */
  datatype DataSource =
    | GoogleAiOverviews
    | GoogleAiMode
    | ChatGpt
    | Gemini
    | Perplexity
    | Copilot

  /** The wire name of a data source. */
  function DataSourceName(d: DataSource): (name: string)
    ensures name != ""
  {
    match d
    case GoogleAiOverviews => "google_ai_overviews"
    case GoogleAiMode => "google_ai_mode"
    case ChatGpt => "chatgpt"
    case Gemini => "gemini"
    case Perplexity => "perplexity"
    case Copilot => "copilot"
  }

  /** Distinct data sources go out under distinct names. */
  lemma DataSourceNameInjective(a: DataSource, b: DataSource)
    ensures DataSourceName(a) == DataSourceName(b) <==> a == b
  {
  }

  /** A tracked brand: the operator's own (target) or a competitor. */
  datatype Brand = Brand(id: string, name: string, domain: Option<string>, isCompetitor: bool)

  /** Mention counts of one brand over the sampled answers. */
  datatype MentionsOverview = MentionsOverview(
    brand: string,
    total: int,
    onlyTargetBrand: int,
    onlyCompetitorsBrands: int,
    targetAndCompetitorsBrands: int,
    noTrackedBrands: int)

  /** Impressions use the same record shape as mentions. */
  type ImpressionsOverview = MentionsOverview

  /** One dated point of a brand's mention history. */
  datatype MentionsHistory = MentionsHistory(date: string, mentions: int)

  /** A brand's share of voice, a fraction. */
  datatype ShareOfVoice = ShareOfVoice(brand: string, shareOfVoice: real)

  /** The shares of voice of all brands on one date. */
  datatype ShareOfVoiceHistory = ShareOfVoiceHistory(date: string, shareOfVoice: seq<ShareOfVoice>)

  /** Search metrics of one domain; any member may be missing from the response. */
  datatype SEOMetrics = SEOMetrics(
    orgKeywords: Option<int>,
    orgTraffic: Option<int>,
    orgCost: Option<int>,
    paidKeywords: Option<int>,
    paidTraffic: Option<int>,
    paidCost: Option<int>)

  datatype Link = Link(url: string, title: Option<string>)

  /** One sampled answer of an answer engine. */
  datatype AIResponse = AIResponse(
    question: string,
    response: string,
    volume: int,
    country: string,
    links: seq<Link>)
}
