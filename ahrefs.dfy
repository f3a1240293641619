/**
 * The metrics client (src/services/ahrefs.ts): it turns a parameter record into
 * a query (dropping empty values, lower-casing `country`), refuses to run
 * without an API key, decodes a failed response into an error message and
 * unwraps the response envelope of each endpoint.
 *
 * The network is an oracle: a function from the query sent to the reply
 * received. The service object records every query it issues in `sent`.
 */
module Ahrefs {
  import opened Wrappers
  import opened Text
  import opened Types

  // ---------------------------------------------------------------- wire types

  /** An issued request: endpoint path, query parameters in order, `Authorization` header. */
  datatype Query = Query(endpoint: string, params: seq<(string, string)>, authorization: string)

  /**
   * A response body as the client reads it: its `error` member ("" when absent
   * or falsy) and its payload member (`metrics` or `ai_responses`; `None` when
   * absent or null).
   */
  datatype Body<T> = Body(error: string, payload: Option<T>)

  /** What `fetch` yields: `ok`, `status`, `statusText`, and the body if it parses as JSON. */
  datatype Reply<T> = Reply(ok: bool, status: int, statusText: string, body: Option<Body<T>>)

  const ApiKeyNotSet := "API key not set"

  /** Message of the error `response.json()` throws on a body that is not JSON. */
  const InvalidJson := "Unexpected token in JSON"

  const MentionsOverviewEndpoint := "/brand-radar/mentions-overview"
  const MentionsHistoryEndpoint := "/brand-radar/mentions-history"
  const SovOverviewEndpoint := "/brand-radar/sov-overview"
  const SovHistoryEndpoint := "/brand-radar/sov-history"
  const ImpressionsOverviewEndpoint := "/brand-radar/impressions-overview"
  const SiteMetricsEndpoint := "/site-explorer/metrics"
  const AIResponsesEndpoint := "/brand-radar/ai-responses"

  const OverviewSelect := "brand,total,only_target_brand,only_competitors_brands,target_and_competitors_brands,no_tracked_brands"
  const SovSelect := "brand,share_of_voice"
  const AIResponsesSelect := "question,response,volume,country,links"
  const DefaultAIResponsesLimit := "20"

  // ---------------------------------------------------------------- query building

  /** `x || ''` for an optional string. */
  function OrEmpty(o: Option<string>): string {
    o.GetOr("")
  }

  /** `normalizeCountry`: lower-cased when truthy, `''` otherwise. */
  function NormalizeCountry(country: Option<string>): (r: string)
    ensures r == "" <==> OrEmpty(country) == ""
    ensures r == ToLower(OrEmpty(country))
  {
    if OrEmpty(country) != "" then ToLower(country.value) else ""
  }

  /** How one non-empty parameter is transmitted. */
  function Transmitted(key: string, value: string): (string, string) {
    if key == "country" then (key, ToLower(value)) else (key, value)
  }

  /** The query parameters appended for a parameter record, in the record's order. */
  function Encode(params: seq<(string, string)>): seq<(string, string)> {
    if params == [] then []
    else
      var (key, value) := params[|params| - 1];
      Encode(params[..|params| - 1]) + (if value != "" then [Transmitted(key, value)] else [])
  }

  /** Encoding respects concatenation: appended pairs keep the record's order. */
  lemma {:induction false} EncodeAppend(a: seq<(string, string)>, b: seq<(string, string)>)
    ensures Encode(a + b) == Encode(a) + Encode(b)
    decreases |b|
  {
    if b == [] {
      assert a + b == a;
    } else {
      assert (a + b)[..|a + b| - 1] == a + b[..|b| - 1];
      EncodeAppend(a, b[..|b| - 1]);
    }
  }

  /**
   * A pair is transmitted exactly when some parameter has a non-empty value and
   * encodes to it; so no transmitted value is empty and `country` is always
   * lower-case.
   */
  lemma {:induction false} EncodeSends(params: seq<(string, string)>, key: string, value: string)
    ensures (key, value) in Encode(params) <==>
      exists i :: 0 <= i < |params| && params[i].1 != "" && Transmitted(params[i].0, params[i].1) == (key, value)
    ensures (key, value) in Encode(params) ==> value != "" && (key == "country" ==> value == ToLower(value))
  {
    if params != [] {
      var p := params[..|params| - 1];
      EncodeSends(p, key, value);
      ToLowerIsNormal(params[|params| - 1].1);
      if (key, value) in Encode(params) && (key, value) !in Encode(p) {
        assert params[|params| - 1].1 != "";
        assert Transmitted(params[|params| - 1].0, params[|params| - 1].1) == (key, value);
      }
      if exists i :: 0 <= i < |params| && params[i].1 != "" && Transmitted(params[i].0, params[i].1) == (key, value) {
        var i :| 0 <= i < |params| && params[i].1 != "" && Transmitted(params[i].0, params[i].1) == (key, value);
        if i < |p| { assert p[i] == params[i]; }
      }
      forall i | 0 <= i < |p| ensures p[i] == params[i] { }
    }
  }

  /** A single `country` parameter is sent exactly as `normalizeCountry` would give it. */
  lemma CountryAgreesWithNormalizeCountry(value: string)
    ensures Encode([("country", value)]) ==
      if NormalizeCountry(Some(value)) == "" then [] else [("country", NormalizeCountry(Some(value)))]
  {
    assert [("country", value)][..0] == [];
  }

  // ---------------------------------------------------------------- responses

  /**
   * The message thrown for a non-2xx reply: the body's `error` when truthy;
   * when the body does not parse, the status text when non-empty; otherwise
   * `API Error: <status>`.
   */
  function ErrorMessage<T>(reply: Reply<T>): (m: string)
    ensures m != ""
  {
    var error := if reply.body.Some? then reply.body.value.error else reply.statusText;
    if error != "" then error else "API Error: " + IntToString(reply.status)
  }

  /** The outcome of `request` once a reply has arrived. */
  function Decode<T>(reply: Reply<T>): (r: Result<Body<T>>)
    ensures r.Ok? <==> reply.ok && reply.body.Some?
    ensures !reply.ok ==> r == Err(ErrorMessage(reply))
    ensures reply.ok && reply.body.Some? ==> r == Ok(reply.body.value)
  {
    if !reply.ok then Err(ErrorMessage(reply))
    else if reply.body.None? then Err(InvalidJson)
    else Ok(reply.body.value)
  }

  /** The decoded error message distinguishes the three sources it can come from. */
  lemma ErrorMessageCases<T>(reply: Reply<T>)
    requires !reply.ok
    ensures reply.body.Some? && reply.body.value.error != "" ==>
      Decode(reply) == Err(reply.body.value.error)
    ensures reply.body.None? && reply.statusText != "" ==>
      Decode(reply) == Err(reply.statusText)
    ensures (reply.body.Some? && reply.body.value.error == "") || (reply.body.None? && reply.statusText == "") ==>
      Decode(reply) == Err("API Error: " + IntToString(reply.status))
  {
  }

  /** The query `request` issues under API key `key`. */
  function QueryFor(key: string, endpoint: string, params: seq<(string, string)>): Query {
    Query(endpoint, Encode(params), "Bearer " + key)
  }

  /** The queries `request` issues: none without an API key, one otherwise. */
  function Issued(key: string, endpoint: string, params: seq<(string, string)>): seq<Query> {
    if key == "" then [] else [QueryFor(key, endpoint, params)]
  }

  /** The outcome of `request` under API key `key` and network `net`. */
  function Call<T>(key: string, endpoint: string, params: seq<(string, string)>, net: Query -> Reply<T>): (r: Result<Body<T>>)
    ensures key == "" ==> r == Err(ApiKeyNotSet)
    ensures key != "" ==> r == Decode(net(QueryFor(key, endpoint, params)))
  {
    if key == "" then Err(ApiKeyNotSet) else Decode(net(QueryFor(key, endpoint, params)))
  }

  /** `{ x: result.metrics || [] }`: a list payload, `[]` when absent. */
  function ListPayload<X>(r: Result<Body<seq<X>>>): (l: Result<seq<X>>)
    ensures l.Ok? <==> r.Ok?
    ensures r.Err? ==> l == Err(r.message)
    ensures r.Ok? && r.value.payload.None? ==> l == Ok([])
    ensures r.Ok? && r.value.payload.Some? ==> l == Ok(r.value.payload.value)
  {
    match r
    case Err(m) => Err(m)
    case Ok(body) => Ok(body.payload.GetOr([]))
  }

  /** `{ metrics: result.metrics }`: the payload as it came, with no default. */
  function RecordPayload<X>(r: Result<Body<X>>): (l: Result<Option<X>>)
    ensures l.Ok? <==> r.Ok?
    ensures r.Err? ==> l == Err(r.message)
    ensures r.Ok? ==> l == Ok(r.value.payload)
  {
    match r
    case Err(m) => Err(m)
    case Ok(body) => Ok(body.payload)
  }

  // ---------------------------------------------------------------- endpoint parameter records

  datatype MentionsOverviewArgs = MentionsOverviewArgs(
    dataSource: DataSource,
    brand: Option<string>,
    competitors: Option<string>,
    country: Option<string>,
    market: Option<string>)

  datatype MentionsHistoryArgs = MentionsHistoryArgs(
    dataSource: DataSource,
    brand: string,
    dateFrom: string,
    dateTo: Option<string>,
    country: Option<string>)

  /** Arguments of the share-of-voice and impressions overviews. */
  datatype GroupArgs = GroupArgs(
    dataSource: DataSource,
    brand: Option<string>,
    competitors: Option<string>,
    country: Option<string>)

  datatype SovHistoryArgs = SovHistoryArgs(
    dataSource: DataSource,
    brand: Option<string>,
    competitors: Option<string>,
    dateFrom: string,
    dateTo: Option<string>,
    country: Option<string>)

  datatype SiteMetricsArgs = SiteMetricsArgs(target: string, date: string, country: Option<string>)

  datatype AIResponsesArgs = AIResponsesArgs(
    dataSource: DataSource,
    brand: Option<string>,
    competitors: Option<string>,
    country: Option<string>,
    limit: Option<int>)

  function MentionsOverviewParams(a: MentionsOverviewArgs): seq<(string, string)> {
    [("select", OverviewSelect),
     ("data_source", DataSourceName(a.dataSource)),
     ("brand", OrEmpty(a.brand)),
     ("competitors", OrEmpty(a.competitors)),
     ("country", OrEmpty(a.country)),
     ("market", OrEmpty(a.market))]
  }

  function MentionsHistoryParams(a: MentionsHistoryArgs): seq<(string, string)> {
    [("data_source", DataSourceName(a.dataSource)),
     ("brand", a.brand),
     ("date_from", a.dateFrom),
     ("date_to", OrEmpty(a.dateTo)),
     ("country", OrEmpty(a.country))]
  }

  function SovOverviewParams(a: GroupArgs): seq<(string, string)> {
    [("select", SovSelect),
     ("data_source", DataSourceName(a.dataSource)),
     ("brand", OrEmpty(a.brand)),
     ("competitors", OrEmpty(a.competitors)),
     ("country", OrEmpty(a.country))]
  }

  function SovHistoryParams(a: SovHistoryArgs): seq<(string, string)> {
    [("data_source", DataSourceName(a.dataSource)),
     ("brand", OrEmpty(a.brand)),
     ("competitors", OrEmpty(a.competitors)),
     ("date_from", a.dateFrom),
     ("date_to", OrEmpty(a.dateTo)),
     ("country", OrEmpty(a.country))]
  }

  function ImpressionsOverviewParams(a: GroupArgs): seq<(string, string)> {
    [("select", OverviewSelect),
     ("data_source", DataSourceName(a.dataSource)),
     ("brand", OrEmpty(a.brand)),
     ("competitors", OrEmpty(a.competitors)),
     ("country", OrEmpty(a.country))]
  }

  function SiteMetricsParams(a: SiteMetricsArgs): seq<(string, string)> {
    [("target", a.target),
     ("date", a.date),
     ("mode", "subdomains"),
     ("country", OrEmpty(a.country))]
  }

  /** `params.limit?.toString() || '20'`. */
  function LimitValue(limit: Option<int>): string {
    match limit
    case None => DefaultAIResponsesLimit
    case Some(n) => IntToString(n)
  }

  function AIResponsesParams(a: AIResponsesArgs): seq<(string, string)> {
    [("select", AIResponsesSelect),
     ("data_source", DataSourceName(a.dataSource)),
     ("brand", OrEmpty(a.brand)),
     ("competitors", OrEmpty(a.competitors)),
     ("country", OrEmpty(a.country)),
     ("limit", LimitValue(a.limit))]
  }

  // ---------------------------------------------------------------- transmitted queries

  /** The pair sent for an optional parameter: nothing when it is empty or absent. */
  function Optional(key: string, value: Option<string>): seq<(string, string)> {
    if OrEmpty(value) == "" then [] else [(key, OrEmpty(value))]
  }

  /** The pair sent for `country`: nothing when empty, otherwise lower-cased. */
  function CountryParam(country: Option<string>): seq<(string, string)> {
    if NormalizeCountry(country) == "" then [] else [("country", NormalizeCountry(country))]
  }

  /** The pairs one parameter contributes to the query. */
  function Sent(p: (string, string)): seq<(string, string)> {
    if p.1 == "" then [] else [Transmitted(p.0, p.1)]
  }

  /** Encoding a record is encoding its first pair, then the rest. */
  lemma EncodeCons(p: (string, string), rest: seq<(string, string)>)
    ensures Encode([p] + rest) == Sent(p) + Encode(rest)
  {
    assert [p][..0] == [];
    EncodeAppend([p], rest);
  }

  lemma SentOptional(key: string, value: Option<string>)
    requires key != "country"
    ensures Sent((key, OrEmpty(value))) == Optional(key, value)
  {
  }

  lemma SentCountry(country: Option<string>)
    ensures Sent(("country", OrEmpty(country))) == CountryParam(country)
  {
  }

  /** Appending a pair to a record appends what that pair sends. */
  lemma EncodeSnoc(ps: seq<(string, string)>, p: (string, string))
    ensures Encode(ps + [p]) == Encode(ps) + Sent(p)
  {
    assert (ps + [p])[..|ps|] == ps;
  }

  /** A four-pair record is sent pair by pair, in order. */
  lemma Encode4(p0: (string, string), p1: (string, string), p2: (string, string), p3: (string, string))
    ensures Encode([p0, p1, p2, p3]) == Sent(p0) + Sent(p1) + Sent(p2) + Sent(p3)
  {
    EncodeSnoc([], p0);
    assert [] + [p0] == [p0];
    EncodeSnoc([p0], p1);
    assert [p0] + [p1] == [p0, p1];
    EncodeSnoc([p0, p1], p2);
    assert [p0, p1] + [p2] == [p0, p1, p2];
    EncodeSnoc([p0, p1, p2], p3);
    assert [p0, p1, p2] + [p3] == [p0, p1, p2, p3];
  }

  /** A five-pair record is sent pair by pair, in order. */
  lemma Encode5(p0: (string, string), p1: (string, string), p2: (string, string), p3: (string, string),
                p4: (string, string))
    ensures Encode([p0, p1, p2, p3, p4]) == Sent(p0) + Sent(p1) + Sent(p2) + Sent(p3) + Sent(p4)
  {
    Encode4(p0, p1, p2, p3);
    EncodeSnoc([p0, p1, p2, p3], p4);
    assert [p0, p1, p2, p3] + [p4] == [p0, p1, p2, p3, p4];
  }

  /** A six-pair record is sent pair by pair, in order. */
  lemma Encode6(p0: (string, string), p1: (string, string), p2: (string, string), p3: (string, string),
                p4: (string, string), p5: (string, string))
    ensures Encode([p0, p1, p2, p3, p4, p5]) ==
      Sent(p0) + Sent(p1) + Sent(p2) + Sent(p3) + Sent(p4) + Sent(p5)
  {
    Encode5(p0, p1, p2, p3, p4);
    EncodeSnoc([p0, p1, p2, p3, p4], p5);
    assert [p0, p1, p2, p3, p4] + [p5] == [p0, p1, p2, p3, p4, p5];
  }

  /**
   * The mentions overview always sends its fixed `select` list and the data
   * source, then brand, competitors, country and market only when non-empty.
   */
  lemma MentionsOverviewQuery(a: MentionsOverviewArgs)
    ensures Encode(MentionsOverviewParams(a)) ==
      [("select", OverviewSelect), ("data_source", DataSourceName(a.dataSource))]
      + Optional("brand", a.brand) + Optional("competitors", a.competitors)
      + CountryParam(a.country) + Optional("market", a.market)
  {
    var ps := MentionsOverviewParams(a);
    Encode6(ps[0], ps[1], ps[2], ps[3], ps[4], ps[5]);
    assert ps == [ps[0], ps[1], ps[2], ps[3], ps[4], ps[5]];
    SentOptional("brand", a.brand);
    SentOptional("competitors", a.competitors);
    SentCountry(a.country);
    SentOptional("market", a.market);
  }

  /**
   * The share-of-voice overview always sends its fixed `select` list and the
   * data source, then brand, competitors and country only when non-empty.
   */
  lemma SovOverviewQuery(a: GroupArgs)
    ensures Encode(SovOverviewParams(a)) ==
      [("select", SovSelect), ("data_source", DataSourceName(a.dataSource))]
      + Optional("brand", a.brand) + Optional("competitors", a.competitors) + CountryParam(a.country)
  {
    var ps := SovOverviewParams(a);
    Encode5(ps[0], ps[1], ps[2], ps[3], ps[4]);
    assert ps == [ps[0], ps[1], ps[2], ps[3], ps[4]];
    SentOptional("brand", a.brand);
    SentOptional("competitors", a.competitors);
    SentCountry(a.country);
  }

  /**
   * The mentions history always sends the data source; brand, start date,
   * end date and country only when non-empty.
   */
  lemma MentionsHistoryQuery(a: MentionsHistoryArgs)
    ensures Encode(MentionsHistoryParams(a)) ==
      [("data_source", DataSourceName(a.dataSource))]
      + Optional("brand", Some(a.brand)) + Optional("date_from", Some(a.dateFrom))
      + Optional("date_to", a.dateTo) + CountryParam(a.country)
  {
    var ps := MentionsHistoryParams(a);
    Encode5(ps[0], ps[1], ps[2], ps[3], ps[4]);
    assert ps == [ps[0], ps[1], ps[2], ps[3], ps[4]];
    SentOptional("brand", Some(a.brand));
    SentOptional("date_from", Some(a.dateFrom));
    SentOptional("date_to", a.dateTo);
    SentCountry(a.country);
  }

  /**
   * The share-of-voice history always sends the data source; brand,
   * competitors, start date, end date and country only when non-empty.
   */
  lemma SovHistoryQuery(a: SovHistoryArgs)
    ensures Encode(SovHistoryParams(a)) ==
      [("data_source", DataSourceName(a.dataSource))]
      + Optional("brand", a.brand) + Optional("competitors", a.competitors)
      + Optional("date_from", Some(a.dateFrom)) + Optional("date_to", a.dateTo) + CountryParam(a.country)
  {
    var ps := SovHistoryParams(a);
    Encode6(ps[0], ps[1], ps[2], ps[3], ps[4], ps[5]);
    assert ps == [ps[0], ps[1], ps[2], ps[3], ps[4], ps[5]];
    SentOptional("brand", a.brand);
    SentOptional("competitors", a.competitors);
    SentOptional("date_from", Some(a.dateFrom));
    SentOptional("date_to", a.dateTo);
    SentCountry(a.country);
  }

  /**
   * The impressions overview sends the mentions overview's `select` list and
   * the data source, then brand, competitors and country only when non-empty.
   */
  lemma ImpressionsOverviewQuery(a: GroupArgs)
    ensures Encode(ImpressionsOverviewParams(a)) ==
      [("select", OverviewSelect), ("data_source", DataSourceName(a.dataSource))]
      + Optional("brand", a.brand) + Optional("competitors", a.competitors) + CountryParam(a.country)
  {
    var ps := ImpressionsOverviewParams(a);
    Encode5(ps[0], ps[1], ps[2], ps[3], ps[4]);
    assert ps == [ps[0], ps[1], ps[2], ps[3], ps[4]];
    SentOptional("brand", a.brand);
    SentOptional("competitors", a.competitors);
    SentCountry(a.country);
  }

  /**
   * The site-metrics request always sends `mode=subdomains`; target, date and
   * country only when non-empty.
   */
  lemma SiteMetricsQuery(a: SiteMetricsArgs)
    ensures Encode(SiteMetricsParams(a)) ==
      Optional("target", Some(a.target)) + Optional("date", Some(a.date))
      + [("mode", "subdomains")] + CountryParam(a.country)
  {
    var ps := SiteMetricsParams(a);
    Encode4(ps[0], ps[1], ps[2], ps[3]);
    assert ps == [ps[0], ps[1], ps[2], ps[3]];
    SentOptional("target", Some(a.target));
    SentOptional("date", Some(a.date));
    SentCountry(a.country);
  }

  /**
   * The AI-responses request always sends a `limit`: 20 when none is given,
   * otherwise the given number, including an explicit 0.
   */
  lemma AIResponsesLimitSent(a: AIResponsesArgs)
    ensures ("limit", LimitValue(a.limit)) in Encode(AIResponsesParams(a))
    ensures a.limit.None? ==> LimitValue(a.limit) == "20"
    ensures a.limit == Some(0) ==> LimitValue(a.limit) == "0"
  {
    var ps := AIResponsesParams(a);
    assert ps[5] == ("limit", LimitValue(a.limit));
    EncodeSends(ps, "limit", LimitValue(a.limit));
  }

  /**
   * Every endpoint's parameter record transmits its data source or target
   * selector and a lower-cased country when one is given, and never an empty
   * value.
   */
  lemma CountryTransmission(params: seq<(string, string)>, country: Option<string>)
    requires ("country", OrEmpty(country)) in params
    requires forall i :: 0 <= i < |params| && params[i].0 == "country" ==> params[i].1 == OrEmpty(country)
    ensures OrEmpty(country) != "" ==> ("country", NormalizeCountry(country)) in Encode(params)
    ensures forall v :: ("country", v) in Encode(params) ==> v == NormalizeCountry(country) && v != ""
  {
    var i :| 0 <= i < |params| && params[i] == ("country", OrEmpty(country));
    EncodeSends(params, "country", NormalizeCountry(country));
    forall v | ("country", v) in Encode(params) ensures v == NormalizeCountry(country) && v != "" {
      EncodeSends(params, "country", v);
    }
  }

  // ---------------------------------------------------------------- the service object

  class AhrefsService {
    /** The API key; `''` until one is set. */
    var apiKey: string
    /** Every query issued to the network so far, oldest first. */
    var sent: seq<Query>

    constructor ()
      ensures apiKey == "" && sent == []
    {
      apiKey := "";
      sent := [];
    }

    method SetApiKey(key: string)
      modifies this`apiKey
      ensures apiKey == key
    {
      apiKey := key;
    }

    method GetApiKey() returns (key: string)
      ensures key == apiKey
    {
      key := apiKey;
    }

    /**
     * `request`: without an API key it fails before building or sending
     * anything; otherwise it appends each non-empty parameter in order
     * (`country` lower-cased), issues the query and decodes the reply.
     */
    method Request<T>(endpoint: string, params: seq<(string, string)>, net: Query -> Reply<T>)
      returns (r: Result<Body<T>>)
      modifies this`sent
      ensures r == Call(apiKey, endpoint, params, net)
      ensures sent == old(sent) + Issued(apiKey, endpoint, params)
    {
      if apiKey == "" {
        return Err(ApiKeyNotSet);
      }
      var search: seq<(string, string)> := [];
      var i := 0;
      while i < |params|
        invariant 0 <= i <= |params|
        invariant search == Encode(params[..i])
      {
        var (key, value) := params[i];
        if key == "country" && value != "" {
          search := search + [(key, ToLower(value))];
        } else if value != "" {
          search := search + [(key, value)];
        }
        assert params[..i + 1][..i] == params[..i];
        i := i + 1;
      }
      assert params[..i] == params;
      var query := Query(endpoint, search, "Bearer " + apiKey);
      sent := sent + [query];
      var reply := net(query);
      if !reply.ok {
        var error := if reply.body.Some? then reply.body.value.error else reply.statusText;
        r := Err(if error != "" then error else "API Error: " + IntToString(reply.status));
      } else if reply.body.None? {
        r := Err(InvalidJson);
      } else {
        r := Ok(reply.body.value);
      }
    }

    method GetMentionsOverview(a: MentionsOverviewArgs, net: Query -> Reply<seq<MentionsOverview>>)
      returns (r: Result<seq<MentionsOverview>>)
      modifies this`sent
      ensures r == ListPayload(Call(apiKey, MentionsOverviewEndpoint, MentionsOverviewParams(a), net))
      ensures sent == old(sent) + Issued(apiKey, MentionsOverviewEndpoint, MentionsOverviewParams(a))
    {
      var result := Request(MentionsOverviewEndpoint, MentionsOverviewParams(a), net);
      r := ListPayload(result);
    }

    method GetMentionsHistory(a: MentionsHistoryArgs, net: Query -> Reply<seq<MentionsHistory>>)
      returns (r: Result<seq<MentionsHistory>>)
      modifies this`sent
      ensures r == ListPayload(Call(apiKey, MentionsHistoryEndpoint, MentionsHistoryParams(a), net))
      ensures sent == old(sent) + Issued(apiKey, MentionsHistoryEndpoint, MentionsHistoryParams(a))
    {
      var result := Request(MentionsHistoryEndpoint, MentionsHistoryParams(a), net);
      r := ListPayload(result);
    }

    method GetShareOfVoiceOverview(a: GroupArgs, net: Query -> Reply<seq<ShareOfVoice>>)
      returns (r: Result<seq<ShareOfVoice>>)
      modifies this`sent
      ensures r == ListPayload(Call(apiKey, SovOverviewEndpoint, SovOverviewParams(a), net))
      ensures sent == old(sent) + Issued(apiKey, SovOverviewEndpoint, SovOverviewParams(a))
    {
      var result := Request(SovOverviewEndpoint, SovOverviewParams(a), net);
      r := ListPayload(result);
    }

    method GetShareOfVoiceHistory(a: SovHistoryArgs, net: Query -> Reply<seq<ShareOfVoiceHistory>>)
      returns (r: Result<seq<ShareOfVoiceHistory>>)
      modifies this`sent
      ensures r == ListPayload(Call(apiKey, SovHistoryEndpoint, SovHistoryParams(a), net))
      ensures sent == old(sent) + Issued(apiKey, SovHistoryEndpoint, SovHistoryParams(a))
    {
      var result := Request(SovHistoryEndpoint, SovHistoryParams(a), net);
      r := ListPayload(result);
    }

    method GetImpressionsOverview(a: GroupArgs, net: Query -> Reply<seq<ImpressionsOverview>>)
      returns (r: Result<seq<ImpressionsOverview>>)
      modifies this`sent
      ensures r == ListPayload(Call(apiKey, ImpressionsOverviewEndpoint, ImpressionsOverviewParams(a), net))
      ensures sent == old(sent) + Issued(apiKey, ImpressionsOverviewEndpoint, ImpressionsOverviewParams(a))
    {
      var result := Request(ImpressionsOverviewEndpoint, ImpressionsOverviewParams(a), net);
      r := ListPayload(result);
    }

    method GetSEOMetrics(a: SiteMetricsArgs, net: Query -> Reply<SEOMetrics>)
      returns (r: Result<Option<SEOMetrics>>)
      modifies this`sent
      ensures r == RecordPayload(Call(apiKey, SiteMetricsEndpoint, SiteMetricsParams(a), net))
      ensures sent == old(sent) + Issued(apiKey, SiteMetricsEndpoint, SiteMetricsParams(a))
    {
      var result := Request(SiteMetricsEndpoint, SiteMetricsParams(a), net);
      r := RecordPayload(result);
    }

    method GetAIResponses(a: AIResponsesArgs, net: Query -> Reply<seq<AIResponse>>)
      returns (r: Result<seq<AIResponse>>)
      modifies this`sent
      ensures r == ListPayload(Call(apiKey, AIResponsesEndpoint, AIResponsesParams(a), net))
      ensures sent == old(sent) + Issued(apiKey, AIResponsesEndpoint, AIResponsesParams(a))
    {
      var result := Request(AIResponsesEndpoint, AIResponsesParams(a), net);
      r := ListPayload(result);
    }
  }
}
