# Stock analysis assistant: response handling and view decisions

This project models the core of a small stock-analysis web application in Dafny. The application asks
a generative-AI service for two things: a fundamental analysis of one company or ticker, and
sector-by-sector recommendations for the Brazilian (B3) or the US market. It turns the service's
free-text answers into JSON payloads and shows them on two screens. The model covers three parts:

- **The service layer** (`services/geminiService.ts`), in `GeminiService`:
  - recovering a JSON payload from a reply that may wrap it in markdown fences and prose;
  - retrying a failing attempt with exponentially growing waits;
  - the two prompt builders;
  - the existence gate and valuation mapping of an analysis;
  - the process-wide per-region cache of recommendations.

  The generation service is an oracle `upstream(prompt, k)`, the reply to `prompt` on attempt `k`.
  `JSON.parse` is the parameter `parse`. The date and the locale time stamp are read afresh on every
  attempt, as in the source; they are the parameters `today(k)` and `stamp(k)`.
- **The analysis dashboard** (`components/StockDashboard.tsx`), in `StockDashboard`:
  - the verdict panel (colour, title, icon, heading, explanatory sentence);
  - the `Indicator: value` split of the pros and cons;
  - the metric score colours;
  - the news links and the no-news message.
- **The market overview** (`components/MarketOverview.tsx`), in `MarketOverview`:
  - the ordered keyword classifier that picks a sector's icon;
  - the trend badge;
  - the region heading;
  - which of loading skeleton, sector cards and empty-state message is on screen.

Support modules:

- `Outcomes`: `Option` and `Result`, plus the error kinds.
  - `EmptyResponse` is "Resposta vazia da IA".
  - `InvalidJsonFormat` is "Formato de JSON inválido retornado pela IA".
  - `TypeError` is a property read on `null`.
  - `Upstream` is a failed service call.
- `Json`: parsed values, with JavaScript truthiness, property access and `length > 0`.
- `JsString`: the JavaScript string operations the core uses: `indexOf`, `lastIndexOf`, `includes`,
  global `replace`, `split`, `join`, `toLowerCase` and `toUpperCase`.
- `Types`: the records of `types.ts` and the visual vocabulary (tones and icons) the views choose from.

The core keeps its own shape:

- The retry loop is a method with loop invariants, proved against its specification.
- The cache is a class with a `map` field that its fetch method updates.
- Extraction, mapping, prompts and view decisions are functions, with lemmas about them.

Three behaviours of the code that are easy to misread:

- **Only `null` makes `data.exists` throw** (`services/geminiService.ts:115`). A parsed number,
  string, boolean or array yields `undefined` for `exists`, so the result is "not found"
  (`MapAnalysis`, `NotFoundWhateverElse`).
- **The invalid-format error carries no text** (`services/geminiService.ts:30-31`). The unparsable
  candidate is only logged; the error thrown holds the fixed message alone.
- **The analysis result is not validated** (`services/geminiService.ts:122-126`). It is the payload
  object copied as it is, with `valuation` and `lastUpdated` overwritten (`MapAnalysis`).

## Model

| member | source | states |
|---|---|---|
| JsString.IndexOf | services/geminiService.ts:20 | `indexOf` gives -1 exactly when the character is absent, and otherwise its first position |
| JsString.LastIndexOf | services/geminiService.ts:21 | `lastIndexOf` gives -1 exactly when the character is absent, and otherwise its last position |
| JsString.Split | components/StockDashboard.tsx:38 | `split(':')` gives at least one piece, and several pieces exactly when the separator occurs |
| JsString.SplitPiecesLackSeparator | components/StockDashboard.tsx:38 | no piece of a split holds the separator |
| JsString.JoinSplit | components/StockDashboard.tsx:38-47 | joining the pieces of a split with the same separator gives back the text |
| JsString.IncludesIffOccurs | components/MarketOverview.tsx:29-32 | `includes` holds exactly when the pattern begins at some position of the text |
| JsString.RemoveAll | services/geminiService.ts:17 | a global removal shortens the text or keeps it; it leaves the text unchanged exactly when the pattern does not occur |
| JsString.LowerOfUpper | components/MarketOverview.tsx:28 | lower-casing ignores any prior upper-casing, so classification on the lower-cased name is case-blind |
| Json.Member | services/geminiService.ts:115 | for the keys the service reads (`exists`, `valuation`, `sectors`), which no built-in prototype defines: reading a property of `null` throws a TypeError; an object yields the member or `undefined`; any other value yields `undefined` |
| Json.Truthy | services/geminiService.ts:132 | a parsed value is truthy exactly when it is not `null`, `false`, `0` or `""` |
| Json.TruthyOpt | services/geminiService.ts:115 | a property read is truthy exactly when it is present and not one of the falsy values |
| Json.OrElse | services/geminiService.ts:188 | the logical-or default gives the property read when it is truthy and the fallback otherwise |
| Json.PositiveLength | services/geminiService.ts:191 | only truthy values pass `length > 0`; a string passes exactly when non-empty, an array exactly when it has an element; `null`, booleans and numbers never pass |
| GeminiService.StripFencesLeavesNoFence | services/geminiService.ts:17 | after both global removals the text holds no "```", even where a removal brings backticks together |
| GeminiService.StripFencesIdempotent | services/geminiService.ts:17 | cleaning an already cleaned text changes nothing |
| GeminiService.BracePairFound | services/geminiService.ts:20-23 | the guard `firstOpen !== -1 && lastClose !== -1 && lastClose > firstOpen` holds exactly when some '{' precedes some '}' |
| GeminiService.SelectSpan | services/geminiService.ts:20-25 | with a '{' before a '}', the candidate is exactly the span from the first '{' to the last '}'; otherwise the text is unchanged |
| GeminiService.SelectSpanOfEmbeddedObject | services/geminiService.ts:20-25 | an object with no '{' before it and no '}' after it is cut out exactly |
| GeminiService.ExtractAndParse | services/geminiService.ts:13-33 | empty text fails with the empty-response error, and only empty text does; an unparsable candidate fails with the invalid-format error; a parsable one succeeds with exactly its parse |
| GeminiService.StripFencedBlock | services/geminiService.ts:17 | cleaning a "```json" fenced block amid backtick-free prose leaves the prose and the block's contents with both fences gone |
| GeminiService.ExtractFencedObject | services/geminiService.ts:13-33 | an object inside a "```json" fenced block amid prose, with any brace-free padding such as line breaks between the fences and the object, is handed to the parser exactly as written |
| GeminiService.ExtractTypicalReply | services/geminiService.ts:13-33 | a reply that introduces the object, fences it on lines of its own and signs off yields the parse of the object |
| GeminiService.ExtractBareObject | services/geminiService.ts:13-33 | an object amid prose alone is handed to the parser exactly as written |
| GeminiService.WithRetry | services/geminiService.ts:36-45 | at most retries+1 attempts; every attempt before the last failed; the outcome is the last attempt's; a failure means the budget was spent; the k-th wait is delay·2^k |
| GeminiService.BackoffTotal | services/geminiService.ts:42-43 | the doubling waits add up to delay·(2^n − 1) |
| GeminiService.AnalysisPrompt | services/geminiService.ts:50-103 | the analysis prompt carries today's date and the query at fixed places in the fixed text |
| GeminiService.AnalysisPromptDeterminesInputs | services/geminiService.ts:50-103 | for dates of one format, distinct queries or dates give distinct analysis prompts |
| GeminiService.RecommendationsPrompt | services/geminiService.ts:138-177 | the recommendations prompt carries the date, the region's market scope and its currency (R$ or US$) at fixed places |
| GeminiService.RecommendationsPromptDeterminesInputs | services/geminiService.ts:138-177 | for dates of one format, distinct regions or dates give distinct recommendations prompts |
| GeminiService.ValuationFrom | services/geminiService.ts:117-120 | only the labels "Barato", "Justo" and "Caro" pick a verdict, each its own; anything else is Unknown |
| GeminiService.ValuationLabelRoundTrip | services/geminiService.ts:117-120 | reading back a verdict's own label gives that verdict |
| GeminiService.MapAnalysis | services/geminiService.ts:115-126 | `null` throws; a result exists exactly for an object with truthy `exists`; it keeps every other member, replaces `valuation` by the verdict label, and sets `lastUpdated` to the stamp |
| GeminiService.NotFoundWhateverElse | services/geminiService.ts:115 | a falsy `exists` gives "not found" whatever else the payload holds |
| GeminiService.AnalyzeAttempt | services/geminiService.ts:105-126 | a failed call, a missing or empty `text`, an unparsable candidate and a `null` payload each fail the attempt; otherwise the attempt is the mapping of the parsed payload |
| GeminiService.RecommendationsAttempt | services/geminiService.ts:179-188 | the same failures as an analysis attempt; otherwise the outcome is `data.sectors` when truthy and `[]` otherwise |
| GeminiService.AnalyzeStock | services/geminiService.ts:47-128 | up to three attempts with waits of 1000 and 2000 ms, each building its prompt from the date read at that attempt; the outcome is that of the first attempt that does not throw; an error surfaces only after the third |
| GeminiService.DefaultWaits | services/geminiService.ts:36 | with the default delay, the waits are 1000 ms and then 2000 ms |
| GeminiService.FetchRecommendations | services/geminiService.ts:136-196 | the retried recommendations fetch: up to three attempts, waits 1000 and 2000 ms, each on the date read at that attempt; the outcome is the first attempt that does not throw, or the third's error |
| GeminiService.MarketCache.constructor | services/geminiService.ts:5 | the cache starts empty |
| GeminiService.MarketCache.GetMarketRecommendations | services/geminiService.ts:130-200 | a cached region is served with no call; otherwise a fetched result is returned and stored for that region only when its length is positive; after total failure the result is `[]` and the cache is untouched; only entries of positive length are ever stored |
| GeminiService.MarketCache.Store | services/geminiService.ts:191-193 | the write for one region keeps every stored entry of positive length and changes no other region |
| GeminiService.RepeatedRequest | services/geminiService.ts:130-134 | a region whose first result was non-empty is served from the cache the second time, whatever the service would answer then; an empty or failed first result is fetched again |
| StockDashboard.VerdictOf | components/StockDashboard.tsx:11-33 | cheap and expensive exclude each other; emerald, "Oportunidade de Compra" and TrendingUp exactly for cheap; red, "Cuidado: Preço Elevado" and Scale exactly for expensive; blue, "Preço Justo" and Activity for fair and unknown |
| StockDashboard.VerdictHeading | components/StockDashboard.tsx:262 | the heading is the verdict's label with no lower-case letter left, of the label's length and equal to it when case is ignored |
| StockDashboard.VerdictHeadingsDistinct | components/StockDashboard.tsx:262 | the upper-cased verdict headings of distinct verdicts differ |
| StockDashboard.VerdictSentences | components/StockDashboard.tsx:273-275 | exactly one explanatory sentence for a cheap, expensive or fair verdict, each its own, and none for unknown |
| StockDashboard.RenderMetricItem | components/StockDashboard.tsx:37-48 | an indicator with a ':' shows a label free of ':' and a value that together with one ':' rebuild the text; one without shows the text as it is |
| StockDashboard.MetricItemSplitsAtFirstColon | components/StockDashboard.tsx:37-48 | the label is the text before the first ':' and the value everything after it, later colons included |
| StockDashboard.ScoreTone | components/StockDashboard.tsx:196 | a score above 70 is emerald, below 40 red, and from 40 to 70 yellow |
| StockDashboard.Render | components/StockDashboard.tsx:11-276 | the verdict panel, heading and sentences are those of the valuation; each pro and con is split at its first ':' and reads back as the original text; each metric gets its score's colour; a news link shows exactly for a present, non-empty url; the no-news message shows exactly when the news list is empty |
| MarketOverview.SectorIcon | components/MarketOverview.tsx:27-34 | the icon is the glyph of the first rule whose keyword occurs in the lower-cased name, and the fallback Layers in blue exactly when no rule matches |
| MarketOverview.SectorIconIgnoresCase | components/MarketOverview.tsx:28 | names that differ only in letter case get the same icon |
| MarketOverview.TechnologyFirst | components/MarketOverview.tsx:29-30 | a name holding "tec" or "growth" gets the technology icon whatever later keywords it holds |
| MarketOverview.FintechGrowthIsTechnology | components/MarketOverview.tsx:29-30 | "fintech growth" matches both the technology and the financial rule, and gets the technology icon |
| MarketOverview.TrendBadge | components/MarketOverview.tsx:116-122 | ALTA in emerald exactly for "up", BAIXA in red exactly for "down", NEUTRO in slate otherwise; an icon exactly for "up", "down" and "neutral" |
| MarketOverview.DeclaredTrendsDrawIcons | components/MarketOverview.tsx:119-122 | each declared trend value draws an icon and its own label |
| MarketOverview.RegionName | components/MarketOverview.tsx:47 | the heading names "Brasil" exactly for BR and "Mundo" otherwise |
| MarketOverview.SectorCardOf | components/MarketOverview.tsx:91-144 | a sector card shows the icon chosen from the sector's name, the name itself, and one trend badge per recommended stock, in order |
| MarketOverview.Overview | components/MarketOverview.tsx:76-146 | the skeleton shows exactly while loading; sector cards show only when not loading, one per sector; the empty-state message shows exactly when the list is empty and not loading |
| MarketOverview.OverviewStatesExclusive | components/MarketOverview.tsx:76-146 | the screen shows exactly one of skeleton, empty-state message or a non-empty list of cards |

## Left out

- The generation client (`GoogleGenAI`, model name, search tool) is the `upstream` oracle, and `JSON.parse` is the `parse` parameter. Neither is modelled inside.
- `getToday()` and `new Date().toLocaleTimeString()` read the clock and the locale on every attempt. They are the parameters `today(k)` and `stamp(k)`, the readings at attempt `k`.
- `setTimeout` waits are not taken. `WithRetry` returns the list of waits it would take instead.
- `console.error` / `console.warn` logging has no observable effect on results and is omitted.
- GeminiService.AnalysisPrompt: the fixed instruction text of the analysis prompt (its numbered items, the pros-and-cons criterion and the schema, `services/geminiService.ts:55-103`) is condensed and paraphrased, and the recommendations prompt's schema is condensed with its whitespace collapsed. Only the interpolation of query, date, region scope and currency is stated exactly.
- Json.PositiveLength: an object whose `length` member is a string, an array, an object or `null` is taken to fail `length > 0`. JavaScript would convert that member to a number first, and that conversion is not modelled.
- GeminiService.MarketCache.GetMarketRecommendations: `length > 0` on a `sectors` value that is neither an array nor a string is modelled only for an object whose `length` member is a number or a boolean. JavaScript's conversion of other values to a number is not modelled.
- GeminiService.MarketCache.GetMarketRecommendations: the cache test is `region in entries`. It is equivalent to the source's truthiness test because only entries of positive length, which are truthy, are ever stored.
- Concurrent requests racing on the cache, and overlapping searches, are not modelled: the model is sequential.
- JsString.ToLower: `toLowerCase` and `toUpperCase` map ASCII letters only. Full Unicode case mapping is not modelled.
- The React state and effect cycle of the overview (`useState`/`useEffect`, `components/MarketOverview.tsx:11-25`) is not modelled. `MarketOverview.Overview` takes the loading flag and the sector list as given.
- JSX markup, Tailwind classes, the radar chart, the metric progress bars, hover styles and click handlers are not modelled.
- `App.tsx` (search form, error message, navigation) is not part of this model.
- The conversion from the service's JSON payload to the typed records that the views read is not modelled. The source does no such conversion at run time either; it only asserts types.
