# LLM mentions vs. SEO dashboard — a Dafny model

This project models the core of a single-page dashboard that compares how
often answer engines (ChatGPT, Gemini, Perplexity, Copilot, Google's AI
overviews and AI mode) mention a set of brands with those brands' organic
search metrics. The project proves properties of that model.

The core has four parts:

- **Metrics client** (`src/services/ahrefs.ts`, module `Ahrefs`).
  - It turns a parameter record into a query: empty values are dropped and
    `country` is lower-cased.
  - Without an API key it refuses to call.
  - It decodes a failed reply into an error message.
  - It unwraps each endpoint's response envelope.
  - The network is an oracle from query to reply. The per-brand history and
    site-metrics calls are separate requests, so their oracles also take the
    brand's position: two brands of the same name can get different replies.
    The service object is a class whose `sent` field logs every query it
    issues.
- **Brand editor** (`src/components/BrandManager.tsx`, module `BrandManager`).
  It adds a trimmed brand, removes a brand by id, and splits the list into
  target brands and competitors.
- **Fetch orchestration** (`fetchData` and `handleApiKeyChange` in
  `src/App.tsx`, module `App`).
  - The function `Fetch` is the specification. It gives the new data state
    and the ordered list of queries issued.
  - It covers:
    - the two guards;
    - the two overviews that abort on failure;
    - the per-brand histories and the share-of-voice history, whose
      failures are absorbed;
    - the SEO metrics of the brands that have a domain.
  - The class `App.Dashboard` holds the configuration and data slots as
    fields. Its method `FetchData` is proved to follow `Fetch`.
- **The four charts** (modules `HistoryChart`, `MentionsChart`,
  `ShareOfVoiceChart`, `SeoComparisonChart`). Each is the data the component
  derives from its props:
  - the rows and series of each chart;
  - the sort orders;
  - the totals;
  - which of the loading, empty and chart views is shown.

Supporting modules:

- `Types` holds the data types of `src/types/index.ts`.
- `Collections` models a JavaScript `Record<string, V>` as an
  insertion-ordered list of pairs:
  - `Put` replaces a value in place or appends the key.
  - `Collect` is a `forEach` of assignments.
  - `Distinct` is a `Set` built in insertion order.
- `Text` holds:
  - ASCII lower-casing;
  - whitespace trimming;
  - `Array.prototype.sort`'s default order on strings (code-unit
    lexicographic);
  - joining and splitting on `,`;
  - decimal numerals.
- `Palette` is the six-colour chart palette.

Where a component iterates with a loop (`forEach`, `push`, property
assignment), the model is a method with a loop. Each such method is proved
equal to a function, and the lemmas are about that function.

## Model

| member | source | states |
|---|---|---|
| Types.DataSourceNameInjective | src/types/index.ts:1-7 | distinct data sources are sent under distinct wire names |
| Palette.ColorCycle | src/components/MentionsChart.tsx:21 | `COLORS[i % 6]` repeats with period six and any six consecutive indices get six different colours |
| Text.ToLowerIsNormal | src/components/SEOComparisonChart.tsx:55 | lower-casing leaves no upper-case letter, is idempotent, and maps only "" to "" |
| Text.Trim | src/components/BrandManager.tsx:16 | the trimmed name is a contiguous infix of the input with only whitespace cut before and after it, inner characters kept; it is empty exactly when the input is all whitespace, and otherwise neither starts nor ends with whitespace |
| Text.TrimIdempotent | src/components/BrandManager.tsx:20-21 | trimming a trimmed string changes nothing |
| Text.Sort | src/components/HistoryChart.tsx:51-52 | `.sort()` returns the same strings (as a multiset) in ascending code-unit order |
| Text.SortDistinctIsStrict | src/components/HistoryChart.tsx:51-52 | sorting distinct dates yields a strictly ascending list |
| Text.LexLessTotal | src/components/HistoryChart.tsx:52 | the default string order is total (and, with LexLessTransitive and LexLessIrreflexive, a strict order) |
| Text.LexLessTransitive | src/components/HistoryChart.tsx:52 | the default string order is transitive |
| Text.SplitJoin | src/App.tsx:69-70 | splitting `names.join(',')` at commas gives back the names, provided no name contains a comma |
| Text.ParseNatToString | src/services/ahrefs.ts:173 | the decimal numeral `toString` writes reads back as the same number |
| Collections.Get | src/components/SEOComparisonChart.tsx:54 | a key lookup finds a value exactly when the key is present, and the value is paired with it |
| Collections.PutGet | src/App.tsx:109 | after `record[k] = v`, `k` reads `v` and every other key reads as before |
| Collections.PutKeys | src/App.tsx:109 | assigning a new key appends it to the key order; assigning an existing key keeps the order and keeps keys distinct |
| Collections.CollectInto | src/App.tsx:107-110 | the `forEach` of assignments builds the record `Collect` describes |
| Collections.CollectKeys | src/App.tsx:107-110 | the built record's keys are the assigned keys in first-assignment order, without repeats |
| Collections.CollectLastWins | src/App.tsx:108-110 | a key assigned several times holds its last value |
| Collections.CollectFrom | src/App.tsx:143-146 | every entry of the built record was one of the assignments |
| Collections.GetDistinct | src/components/SEOComparisonChart.tsx:54 | in a record, the value read at a key is that key's own entry |
| Collections.Distinct | src/components/HistoryChart.tsx:46-49 | a `Set` holds exactly the added elements, each once |
| Collections.DistinctFirstAppearanceOrder | src/components/HistoryChart.tsx:76 | a `Set` lists its elements in order of first insertion |
| Collections.SumBoundsElements | src/components/MentionsChart.tsx:54 | a sum of non-negative numbers bounds each of them |
| Ahrefs.NormalizeCountry | src/services/ahrefs.ts:26-28 | the normalised country is the lower-cased country, and is empty exactly when none is given |
| Ahrefs.CountryAgreesWithNormalizeCountry | src/services/ahrefs.ts:38-39 | the inline country lower-casing in `request` agrees with `normalizeCountry` |
| Ahrefs.EncodeSends | src/services/ahrefs.ts:36-43 | a pair is sent exactly when some parameter has that key and a non-empty value (lower-cased for `country`); nothing empty is sent |
| Ahrefs.EncodeAppend | src/services/ahrefs.ts:36-43 | parameters are appended one by one in record order |
| Ahrefs.CountryTransmission | src/services/ahrefs.ts:36-43 | a given country is sent lower-cased; no other country value is ever sent |
| Ahrefs.ErrorMessage | src/services/ahrefs.ts:53-54 | the thrown message is never empty |
| Ahrefs.Decode | src/services/ahrefs.ts:52-57 | a reply succeeds exactly when it is OK and its body parses; a non-OK reply yields the error message |
| Ahrefs.ErrorMessageCases | src/services/ahrefs.ts:53-54 | the message is the body's `error`; when the body does not parse, the status text; otherwise `API Error: <status>` |
| Ahrefs.Call | src/services/ahrefs.ts:30-57 | without a key, `API key not set` and no network use; with one, the decoded reply to the issued query |
| Ahrefs.ListPayload | src/services/ahrefs.ts:75 | errors pass through; a missing list payload reads as the empty list |
| Ahrefs.RecordPayload | src/services/ahrefs.ts:157 | errors pass through; the metrics payload is passed on as it came, possibly absent |
| Ahrefs.MentionsOverviewQuery | src/services/ahrefs.ts:67-74 | the exact query: `select` and `data_source` always, then brand, competitors, country (lower-cased) and market when non-empty |
| Ahrefs.MentionsHistoryQuery | src/services/ahrefs.ts:85-91 | the exact query: `data_source` always, then brand, dates and country when non-empty |
| Ahrefs.SovOverviewQuery | src/services/ahrefs.ts:101-107 | the exact query: `select` and `data_source` always, then brand, competitors and country when non-empty |
| Ahrefs.SovHistoryQuery | src/services/ahrefs.ts:119-126 | the exact query: `data_source` always, then brand, competitors, dates and country when non-empty |
| Ahrefs.ImpressionsOverviewQuery | src/services/ahrefs.ts:136-142 | the exact query, with the mentions overview's `select` list |
| Ahrefs.SiteMetricsQuery | src/services/ahrefs.ts:151-156 | `mode=subdomains` always; target, date and country when non-empty |
| Ahrefs.AIResponsesLimitSent | src/services/ahrefs.ts:173 | a `limit` is always sent: 20 by default, and an explicit 0 as "0" |
| Ahrefs.AhrefsService.constructor | src/services/ahrefs.ts:15-16 | a new service has no key and has sent nothing |
| Ahrefs.AhrefsService.SetApiKey | src/services/ahrefs.ts:18-20 | the key becomes the given one |
| Ahrefs.AhrefsService.GetApiKey | src/services/ahrefs.ts:22-24 | returns the current key |
| Ahrefs.AhrefsService.Request | src/services/ahrefs.ts:30-58 | the result is `Call` under the current key, and the query log grows by the query issued (none without a key) |
| Ahrefs.AhrefsService.GetMentionsOverview | src/services/ahrefs.ts:60-76 | the list payload of the call with the mentions-overview parameters, and the query logged |
| Ahrefs.AhrefsService.GetMentionsHistory | src/services/ahrefs.ts:78-93 | the same for the mentions history |
| Ahrefs.AhrefsService.GetShareOfVoiceOverview | src/services/ahrefs.ts:95-109 | the same for the share-of-voice overview |
| Ahrefs.AhrefsService.GetShareOfVoiceHistory | src/services/ahrefs.ts:111-128 | the same for the share-of-voice history |
| Ahrefs.AhrefsService.GetImpressionsOverview | src/services/ahrefs.ts:130-144 | the same for the impressions overview |
| Ahrefs.AhrefsService.GetSEOMetrics | src/services/ahrefs.ts:146-158 | the record payload (no default) of the site-metrics call |
| Ahrefs.AhrefsService.GetAIResponses | src/services/ahrefs.ts:160-176 | the list payload of the AI-responses call |
| BrandManager.PartitionKeepsOrder | src/components/BrandManager.tsx:35-36 | both filters keep list order: the groups of a concatenation are the concatenated groups |
| BrandManager.PartitionIsComplete | src/components/BrandManager.tsx:35-36 | targets and competitors together are exactly the brands (as a multiset) |
| BrandManager.RemoveBrand | src/components/BrandManager.tsx:31-33 | the remaining brands are exactly those whose id differs |
| BrandManager.RemoveUnknownId | src/components/BrandManager.tsx:31-33 | removing an id no brand carries changes nothing |
| BrandManager.RemoveKeepsOrder | src/components/BrandManager.tsx:32 | removal keeps the survivors in order |
| BrandManager.DomainFrom | src/components/BrandManager.tsx:21 | a blank domain becomes absent; otherwise the trimmed, non-empty domain |
| BrandManager.Added | src/components/BrandManager.tsx:15-25 | nothing is emitted exactly when the name is blank; otherwise the old list plus one brand with the trimmed name and domain, with no uniqueness check |
| BrandManager.AddedBrandIsTrimmed | src/components/BrandManager.tsx:15-25 | an added brand's name is non-empty and already trimmed, and so is its domain |
| BrandManager.BrandForm.constructor | src/components/BrandManager.tsx:11-13 | the form starts empty, as a target brand |
| BrandManager.BrandForm.AddBrand | src/components/BrandManager.tsx:15-29 | emits `Added`; the form is reset after a successful add and untouched after a blank one |
| App.GroupStrings | src/App.tsx:66-70 | the brand and competitor strings list the group's names, comma-joined, and are empty for an empty group |
| App.HistoryOutcome | src/App.tsx:92-105 | the history of the i-th brand's own call; a failed call gives that brand an empty history |
| App.SovHistoryOutcome | src/App.tsx:114-126 | a failed share-of-voice history call gives an empty history |
| App.SeoOutcome | src/App.tsx:130-141 | the k-th brand with a domain has metrics exactly when its own call succeeds with a metrics payload |
| App.HistoryResults | src/App.tsx:92-106 | one result per brand, in brand order |
| App.WithDomains | src/App.tsx:129 | exactly the brands with a non-empty domain |
| App.WithDomainsKeepsOrder | src/App.tsx:129 | the filter keeps list order: filtering a concatenation concatenates the filtered parts |
| App.SeoResults | src/App.tsx:130-142 | one result per brand with a domain, in order |
| App.PresentPairs | src/App.tsx:144-146 | only results with metrics are kept |
| App.FetchAfterOverviews | src/App.tsx:72-147 | the successful fetch, field by field, and its query sequence |
| App.GuardsMakeNoCall | src/App.tsx:53-61 | no query is issued exactly when a guard fails; then only the error message changes, the key message taking precedence |
| App.LoadingEndsAndErrorReflectsOverviews | src/App.tsx:63-152 | once the guards pass, loading ends false, and the error is cleared exactly when both overviews succeed |
| App.MentionsOverviewFailureKeepsData | src/App.tsx:74-80 | a failed mentions overview issues one query and leaves every data slot as it was |
| App.SovOverviewFailureKeepsLaterData | src/App.tsx:83-89 | a failed share-of-voice overview keeps the new mentions and leaves every later slot as it was |
| App.QueriesAfterOverviews | src/App.tsx:92-141 | one history query per brand in order, then the share-of-voice history, then, at each later position k, the site query of the k-th brand with a domain |
| App.HistoryKeysAndValues | src/App.tsx:107-111 | the history record has one key per distinct brand name, in first-appearance order; a name maps to the outcome of the last brand of that name |
| App.SovHistoryFailureAbsorbed | src/App.tsx:114-126 | a failed share-of-voice history leaves an empty history and no error |
| App.SeoDataMembership | src/App.tsx:128-147 | a name has SEO data exactly when some brand of that name with a domain got metrics; its value is that of the last such brand, overwriting earlier ones |
| App.SeoMapMembership | src/App.tsx:143-146 | the membership fact stated about the SEO map alone |
| App.SeoMapLastWins | src/App.tsx:143-146 | the SEO map holds, under a name, the metrics of the last brand of that name that got any |
| App.PresentLastWins | src/App.tsx:144-146 | `if (r.data) seoMap[r.brand] = r.data` leaves each name with its last present result |
| App.PresentKeys | src/App.tsx:144-146 | a name becomes a key exactly when some result of that name carries metrics |
| App.SiteQueryParams | src/App.tsx:132-136 | the site query targets the brand's domain on the end date, with the country |
| App.CollectPresent | src/App.tsx:143-146 | the loop builds the SEO map that `Collect(Present(...))` describes |
| App.Dashboard.constructor | src/App.tsx:25-45 | the initial configuration and empty data state |
| App.Dashboard.HandleApiKeyChange | src/App.tsx:47-50 | the dashboard and the shared service both take the new key |
| App.Dashboard.FetchData | src/App.tsx:52-153 | the new state and the query log follow `Fetch`; the configuration is unchanged |
| App.Dashboard.FetchAfterGuards | src/App.tsx:72-152 | after the guards: the new state and the query log follow `Fetch` |
| App.Dashboard.FetchSecondary | src/App.tsx:91-147 | histories, share-of-voice history and SEO map, with their queries in order |
| App.Dashboard.FetchHistories | src/App.tsx:92-111 | builds `HistoryMap` and logs one history query per brand |
| App.Dashboard.FetchSeo | src/App.tsx:128-147 | builds `SeoMap` and logs one site query per brand with a domain |
| HistoryChart.DatesOfBrandsMembership | src/components/HistoryChart.tsx:46-49 | a date is collected exactly when some listed brand has a point on it |
| HistoryChart.HasMentionsDataIffDates | src/components/HistoryChart.tsx:31-32 | `hasMentionsData` holds exactly when at least one date is collected |
| HistoryChart.RowDatesSortedAndComplete | src/components/HistoryChart.tsx:46-52 | the row dates are strictly ascending, one per distinct date, and are exactly the dates some brand has a point on |
| HistoryChart.FirstMentions | src/components/HistoryChart.tsx:56-57 | 0 when the brand has no point on the date; otherwise the mentions of its first point on that date |
| HistoryChart.MentionsCells | src/components/HistoryChart.tsx:55-58 | one cell per brand, in key order |
| HistoryChart.MentionsRowCell | src/components/HistoryChart.tsx:54-58 | each brand's cell in a row reads its first matching mentions (also for a brand named `date`) |
| HistoryChart.MentionsRowDate | src/components/HistoryChart.tsx:54 | a row's `date` cell is its date, unless a brand is named `date` |
| HistoryChart.MentionsRowKeys | src/components/HistoryChart.tsx:54-58 | a row's keys are `date` then the brands, without repeats |
| HistoryChart.AddDates | src/components/HistoryChart.tsx:48 | adding one brand's dates to the set |
| HistoryChart.CollectDates | src/components/HistoryChart.tsx:46-49 | the date set holds the distinct dates in first-appearance order |
| HistoryChart.MentionsPoint | src/components/HistoryChart.tsx:54-58 | the loop builds the row `MentionsRow` describes |
| HistoryChart.PointsFor | src/components/HistoryChart.tsx:53-60 | one row per date, in order |
| HistoryChart.MentionsChartData | src/components/HistoryChart.tsx:44-61 | the mentions series is `MentionsRows` |
| HistoryChart.ShareCells | src/components/HistoryChart.tsx:68-70 | one share cell per share, in order |
| HistoryChart.SovRowCells | src/components/HistoryChart.tsx:66-70 | a brand's cell holds its last share in that entry |
| HistoryChart.SovRowDate | src/components/HistoryChart.tsx:67 | a row's `date` cell is its entry's date unless a brand is named `date` |
| HistoryChart.SovChartData | src/components/HistoryChart.tsx:64-73 | the share-of-voice series is `SovRows`, one row per entry |
| HistoryChart.FlatBrandsMembership | src/components/HistoryChart.tsx:76 | the flattened brand list holds exactly the brands of some entry |
| HistoryChart.SovBrandsSpec | src/components/HistoryChart.tsx:75-77 | the series brands are exactly the brands of some entry, without repeats, in first-appearance order |
| HistoryChart.HistoryViewCases | src/components/HistoryChart.tsx:22-155 | loading wins; the empty view shows exactly when there are no dates and no share-of-voice entries; the mentions chart draws one line per history key only when some brand has a dated point, and the share-of-voice chart one line per brand only when there is an entry |
| HistoryChart.LinesCycleColors | src/components/HistoryChart.tsx:105-110 | the i-th line plots brand i in palette colour i mod 6, so colours repeat every six lines and any six consecutive lines differ |
| MentionsChart.TotalIsSumOfSlices | src/components/MentionsChart.tsx:48-54 | the headline total is the sum of the pie slices |
| MentionsChart.SliceWithinTotal | src/components/MentionsChart.tsx:48-54 | with non-negative counts no slice exceeds the total |
| MentionsChart.BarsMatchSlices | src/components/MentionsChart.tsx:41-52 | bars and slices list the brands in input order, a slice being its brand's total bar, the stacked bars its only-this-brand and with-competitors counts; the colours cycle |
| MentionsChart.MentionsViewCases | src/components/MentionsChart.tsx:24-39 | loading wins; the panel is empty exactly when there is no overview |
| ShareOfVoiceChart.InsertByShare | src/components/ShareOfVoiceChart.tsx:45 | inserting keeps every bar |
| ShareOfVoiceChart.SortByShare | src/components/ShareOfVoiceChart.tsx:45 | sorting keeps exactly the same bars |
| ShareOfVoiceChart.SortByShareDescending | src/components/ShareOfVoiceChart.tsx:45 | the sorted bars descend by share |
| ShareOfVoiceChart.SortByShareStable | src/components/ShareOfVoiceChart.tsx:45 | bars of equal share keep their input order |
| ShareOfVoiceChart.ChartDataSorted | src/components/ShareOfVoiceChart.tsx:38-45 | the drawn bars descend by share, one per input, and the sort is stable |
| ShareOfVoiceChart.ChartDataEntries | src/components/ShareOfVoiceChart.tsx:38-44 | each drawn bar is an input brand with its share and the colour of its input position |
| ShareOfVoiceChart.CardsAreLeaders | src/components/ShareOfVoiceChart.tsx:87-89 | `min(3, n)` cards ranked 1 upwards, each with the name, share and colour of the bar of that rank; no bar without a card has a higher share than one with a card |
| ShareOfVoiceChart.SovViewCases | src/components/ShareOfVoiceChart.tsx:21-36 | loading wins; the panel is empty exactly when there is no share |
| SeoComparisonChart.OrZero | src/components/SEOComparisonChart.tsx:59 | `n \|\| 0` reads a missing count as 0 and keeps a present one |
| SeoComparisonChart.TrafficValue | src/components/SEOComparisonChart.tsx:60 | the value in dollars is the cost in cents over 100, and 0 when missing |
| SeoComparisonChart.FindLlmFirstMatch | src/components/SEOComparisonChart.tsx:55 | `find` fails exactly when no overview's brand matches ignoring case; otherwise it returns the first match |
| SeoComparisonChart.FindLlmIgnoresCase | src/components/SEOComparisonChart.tsx:55 | names differing only in letter case find the same overview |
| SeoComparisonChart.ComparisonRow | src/components/SEOComparisonChart.tsx:53-64 | one row per brand with metrics: its traffic, keywords and dollar value (missing as 0), and the first matching overview's total (0 when none) |
| SeoComparisonChart.TotalsBoundRows | src/components/SEOComparisonChart.tsx:67-69 | with non-negative counts each row's traffic and mentions are within the card totals |
| SeoComparisonChart.SeoViewCases | src/components/SEOComparisonChart.tsx:34-50 | loading wins; empty exactly when there are neither metrics nor overviews; overviews alone give no rows and zero totals |

## Left out

- **Network and HTTP.** The URL base (`API_BASE`) and the `Accept` header are
  not modelled. A query records the endpoint, the parameters in order and the
  `Authorization` header.
- **Network failures.** A `fetch` rejection (network failure) is not modelled.
  Every call yields a reply.
- **Non-JSON reply.** A reply whose body is not JSON produces a fixed message
  (`InvalidJson`) instead of the engine-specific parser message.
- **JSON `null` body.** An error body that parses as JSON `null` would raise a
  `TypeError` in the source. The model treats it as a body without `error`.
- **Missing payload of a successful reply.** When a successful reply's body is
  `null`, reading `result.metrics` throws in the source. The model reads the
  payload as absent.
- **Non-`Error` exceptions.** The `'Failed to fetch data'` branch of the catch
  in `fetchData` is not modelled. Every failure in the model carries a message.
- **Commas in brand names.** The source joins the group's names with `,` and
  does not check them, so a name containing a comma reaches the metrics API
  as two brands. The model sends the joined string as the source does
  (`Text.SplitJoin` holds only for names without commas) and does not model
  how the API splits it.
- **Concurrency and React state.** `Promise.all` over the per-brand calls is
  modelled as the calls in brand order. React's batching of state updates is
  not modelled. Each setter is a field assignment.
- **Date default and brand ids.** The dashboard constructor takes the default
  date range as a parameter instead of reading the clock. `crypto.randomUUID()`
  is a parameter of `BrandForm.AddBrand`.
- **Floating point and formatting.**
  - `toFixed`, `formatNumber`, `formatCurrency` and locale date formatting are
    not modelled.
  - Shares of voice are kept as the raw fraction. The source stores
    `(x * 100).toFixed(1)` strings in the history chart and card labels.
  - Reals are exact, and NaN is not modelled. The share comparator
    `b.rawValue - a.rawValue` is modelled as a stable descending sort, which
    it is for non-NaN values.
- **Unicode.** `toLowerCase` is modelled on ASCII letters only. `trim` removes
  ECMAScript's whitespace and line terminators. String order is per
  character, which equals UTF-16 code-unit order for characters in the Basic
  Multilingual Plane.
- **Record key order.** Integer-like keys, which JavaScript enumerates first,
  are kept in insertion order like every other key. `__proto__` keys are not
  modelled.
- **Unused service operations.** `getImpressionsOverview` and `getAIResponses`
  are modelled as service methods, but the dashboard never calls them, so
  `App` does not use them.
- **Loading flag.** The charts' optional `loading` prop is a `bool`
  (`undefined` reads as `false`).
- **Rendering.** JSX markup, recharts layout, tooltips and CSS classes are not
  modelled. Each chart's model ends at the data it hands to recharts and at
  which view it shows.
- **Other files.** The configuration panel, the development proxy server, the
  serverless API proxy and the UI test scripts are not part of this model.
- App.Dashboard.FetchData: `fetchData` is modelled as one atomic step. The
  interleaving of a second fetch, or a key change during an outstanding fetch,
  is not captured.
