# Emission dashboard: a verified model of its core

The emission dashboard shows greenhouse-gas emission records (country, sector,
year, emissions in MtCO₂e). The user filters them by country, sector and year
range. A bar chart sums the filtered records per sector, and a KPI card shows
their total. A live card shows the carbon intensity of the Great Britain
electricity grid. A chat panel sends a question to the server, and the server
answers with a fixed template. The template holds four parts:

- a summary of the records in view;
- a sentence about the grid intensity;
- a short reference text;
- the question, echoed back.

This project models that core in Dafny:

- **`Records`**: the record, the corpus as an ordered sequence, the emission
  folds, and `Distinct`, which keeps values in first-seen order as a
  JavaScript `Set` does.
- **`Text`**: how an integer is rendered as decimal text, and JavaScript's
  string order. Calling `sort()` without a comparator uses that order.
- **`FilterEngine`**: the server's `filterEmissions`. It is a method that
  narrows the corpus in three stages. It is specified by `Select`, a single
  filter on the conjunction of the active constraints.
- **`Aggregation`**: the per-sector dictionary.
  - `aggregateBySector` is a loop method, built on an insertion-ordered
    `seq<Entry>`.
  - The bar chart's empty-data branch.
  - The stable descending sort whose head `summarizeData` reports as the top
    sector.
- **`Signals`**: the two fetchers of external data (the reference text and the
  grid intensity) and the `/api/realtime` mapping.
- **`ChatServer`**: `summarizeData`, the choice of context data, and the
  answer template of `/api/chat`.
- **`App`**: the dashboard page.
  - A class `Dashboard` holds the page state, with the methods `Load` and
    `LoadFiltered`.
  - The option lists and the KPI total.
  - The derivation of the initial year bounds.
  - The live card.
- **`ChatPanel`**: the chat transcript.
  - A class `Panel` with `HandleSend` and `HandleKeyDown`.
  - The transition function `Send` that specifies them.
  - `Trim` with the ECMAScript white-space set.

Network requests are parameters of type `Fetch<T>` (`Failed`, or
`Received(body)`), so every outcome a request can have is an input.
`toFixed(2)` is the parameter `fmt: real -> string`. Emissions are `real`.

## Model

| member | source | states |
|---|---|---|
| FilterEngine.FilterEmissions | server/index.js:14-32 | The result of the three stages (country, then sector, then year range, each only when active) is the single filter `Select`: the records that satisfy every active constraint, in input order |
| FilterEngine.WhereMembership | server/index.js:18 | A record is in a filter's output exactly when it is in the input and satisfies the predicate |
| FilterEngine.WhereWhere | server/index.js:15-29 | Filtering by `p` and then by `q` equals one filter by `p && q`, which is why the stages compose into `Select` |
| FilterEngine.SelectIsOrderPreservingSubsequence | server/index.js:14-32 | The result is an order-preserving subsequence of the corpus. Kept positions strictly increase, each result element is the record at its position, and a position is kept iff its record matches |
| FilterEngine.SelectKeepsDuplicates | server/index.js:14-32 | Each matching record is kept as many times as it occurs, and each other record not at all. Duplicates are neither merged nor invented |
| FilterEngine.SelectUnconstrained | server/index.js:17-29 | With country and sector absent, empty or "All", and without both year bounds, the corpus comes back unchanged |
| FilterEngine.SelectInvertedRange | server/index.js:25-29 | When both bounds are given and start > end, the result is empty, because the bounds are not reordered |
| FilterEngine.SelectIdempotent | server/index.js:14-32 | Filtering the output again with the same criteria changes nothing |
| Records.Distinct | client/src/App.jsx:73 | `new Set` of a column holds no value twice and is no longer than the column |
| Records.DistinctMembership | client/src/App.jsx:73 | The set holds exactly the values of the column |
| Records.DistinctFirstOccurrenceOrder | client/src/App.jsx:73-74 | Values are listed in order of first occurrence. A value listed before another occurs in the column before any occurrence of the later one |
| Aggregation.Bump | client/src/components/charts/SectorBarChart.jsx:13 | Adding to a key keeps the dictionary's key order. A new key is appended at the end |
| Aggregation.BumpGet | client/src/components/charts/SectorBarChart.jsx:13 | After adding `v` under `k`, the lookup of `k` grew by `v` and every other lookup is unchanged |
| Aggregation.SectorTotals | client/src/components/charts/SectorBarChart.jsx:11-18 | The dictionary's keys are the distinct sectors in first-occurrence order |
| Aggregation.SectorTotalsGet | client/src/components/charts/SectorBarChart.jsx:12-14 | Looking up a sector gives the sum of that sector's emissions |
| Aggregation.SectorTotalsSum | client/src/components/charts/SectorBarChart.jsx:12-18 | The entries' values add up to the total emissions |
| Aggregation.SectorTotalsEntries | client/src/components/charts/SectorBarChart.jsx:12-18 | Every entry holds the total of its own sector, the entries add up to the total emissions, and the dictionary is empty exactly when the data is |
| Aggregation.GetEntry | client/src/components/charts/SectorBarChart.jsx:15-18 | In a dictionary without repeated keys each entry holds its key's lookup |
| Aggregation.AggregateBySector | client/src/components/charts/SectorBarChart.jsx:10-19 | The loop's entries have one key per distinct sector, in first-occurrence order. Each value is that sector's sum, the values add up to the total, and there are no entries exactly when there is no data |
| Aggregation.SectorBarChart | client/src/components/charts/SectorBarChart.jsx:21-38 | Shows the "No data to display" message exactly for empty data, and bars exactly for non-empty data: the aggregated sector totals, never empty |
| Aggregation.InsertDesc | server/index.js:47 | Inserting into the sorted entries adds exactly that entry: the multiset grows by it |
| Aggregation.SortDesc | server/index.js:47 | The sort is a permutation of the dictionary's entries |
| Aggregation.InsertDescKeepsOrder | server/index.js:47 | Inserting into a descending sequence keeps it descending |
| Aggregation.SortDescOrders | server/index.js:47 | The sorted entries are in non-increasing order of value |
| Aggregation.FirstMaxIndex | server/index.js:47-48 | Picks an entry with the largest value, where every earlier entry is strictly smaller |
| Aggregation.SortDescHead | server/index.js:47-48 | Because the sort is stable, its head is the first entry with the largest value |
| Aggregation.TopSector | server/index.js:48 | There is no top sector exactly when the dictionary is empty. Otherwise it is the sector of the first maximal entry |
| Aggregation.SectorEntry | server/index.js:42-45 | Every sector of the data has an entry holding that sector's total |
| Aggregation.TopSectorOfData | server/index.js:40-48 | For non-empty data the top sector occurs in the data, and no sector has a larger total. Among tied sectors it is the one that first occurs earliest |
| Aggregation.TieBreak | server/index.js:47-48 | A sector tied with the top sector occurs only after the top sector has occurred |
| Signals.WebInfo | server/index.js:73-84 | A failed request gives the "could not fetch" phrase. A missing or empty `extract` gives the "no external info" phrase. Otherwise the result is a prefix of the extract: the whole extract up to 600 characters, and exactly 600 beyond that. The result is never empty and never longer than 600 |
| Signals.IntensityNote | server/index.js:87-105 | The sentence is the fixed "temporarily unavailable" one exactly when the request failed or returned no first period. Otherwise it carries the first period's actual reading whenever that is present (0 included, forecast or not), else its forecast, else "unknown"; and its index unless that is missing or empty, else "unknown" |
| Signals.RealtimeEndpoint | server/index.js:108-131 | An error reply exactly when the request failed ("Failed to fetch real-time data") or returned no first period ("No real-time data available"). Otherwise it serves the first period's `from` and `to` unchanged, `intensity` as the actual reading when present and else the forecast, the forecast, and the index as is (an empty index stays empty); with no `intensity` object the three reading fields are null |
| Signals.NoteMatchesEndpoint | server/index.js:87-131 | The chat sentence is the unavailable one exactly when the endpoint errs. Otherwise the sentence is built from the intensity and index the endpoint serves |
| ChatServer.Summary | server/index.js:35-53 | The summary is the no-data sentence exactly for empty data |
| ChatServer.SummarizeData | server/index.js:35-53 | Gives the no-data sentence exactly for empty data. Otherwise it gives the sentence naming `toFixed(2)` of the total and a highest sector: one with the largest total, the earliest-occurring among ties |
| ChatServer.AnswerSlots | server/index.js:148-158 | Reading the template back: each heading, the summary, the intensity sentence, the reference text and the question sit at fixed offsets, in that order |
| ChatServer.HandleChat | server/index.js:134-165 | The answer is the template filled with the summary of the data in use, the intensity sentence and the reference text for the two fetch outcomes, and the question |
| ChatServer.ChatAnswerLayout | server/index.js:139-158 | Every answer holds, in order: the summary of `contextData` (or of the corpus when `contextData` is absent or empty), the intensity sentence, the reference text, and the question verbatim |
| ChatServer.ContextFallback | server/index.js:139-142 | Sending no records, an empty list, or the whole corpus gives the same answer |
| ChatServer.DegradedAnswer | server/index.js:139-158 | With no records and both fetches failing, the answer still holds all four parts: the no-data, unavailable and could-not-fetch sentences and the question |
| Text.LexLessIrreflexive | client/src/App.jsx:27 | No year text sorts before itself |
| Text.LexLessTransitive | client/src/App.jsx:27 | The order of `sort()` without a comparator is transitive |
| Text.LexLessTotal | client/src/App.jsx:27 | Any two different texts are ordered one way or the other |
| Text.LexOrderMatchesNumeric | client/src/App.jsx:27 | For numbers with the same count of digits, the text order is the numeric order |
| App.Options | client/src/App.jsx:72-80 | An option list starts with "All", and the values after it are distinct |
| App.OptionsListing | client/src/App.jsx:72-80 | After "All", every value of the column is listed, and nothing else |
| App.OptionsOrder | client/src/App.jsx:72-80 | After "All", options are in order of first occurrence in the data |
| App.Countries | client/src/App.jsx:72-75 | "All", then each country of `allData`, exactly once and in first-occurrence order |
| App.Sectors | client/src/App.jsx:77-80 | "All", then each sector of `allData`, exactly once and in first-occurrence order |
| App.TotalEmissions | client/src/App.jsx:82-85 | The KPI total is 0 for no data, and equals the sum of the bar chart's entries |
| App.Years | client/src/App.jsx:27 | The distinct years are empty exactly when the data is |
| App.LexFirst | client/src/App.jsx:27-29 | The first year of the sorted list is one of the years |
| App.LexLast | client/src/App.jsx:27-30 | The last year of the sorted list is one of the years |
| App.LexFirstLeast | client/src/App.jsx:27-29 | No year's text sorts before the start year's text |
| App.LexLastGreatest | client/src/App.jsx:27-30 | No year's text sorts after the end year's text |
| App.FourDigitYearBounds | client/src/App.jsx:27-31 | With four-digit years, the start is the least year and the end is the greatest |
| App.MixedLengthYearBounds | client/src/App.jsx:27-30 | For years 999 and 2020, the start is 2020 and the end is 999 |
| App.InitialReloadKeepsCorpus | client/src/App.jsx:27-62 | With four-digit years, the derived bounds are truthy, and the first filtered reload ("All", "All", bounds) returns the whole corpus |
| App.MixedLengthReloadEmpty | client/src/App.jsx:27-62 | With years 999 and 2020, the derived bounds are inverted and the first filtered reload returns nothing |
| App.LiveCard | client/src/App.jsx:207-226 | The card shows a reading exactly when `realtime` is set. Its value is the served intensity when present, else the forecast; its index label is the served index when present and non-empty, else "n/a". It shows the error text exactly when there is no reading and the error is set. Otherwise it shows "Loading..." |
| App.CardAgreesWithChat | client/src/App.jsx:207-213 | For a served reading, the card's number is the current period's actual-else-forecast value. The chat's intensity sentence reports the same number |
| App.Dashboard.constructor | client/src/App.jsx:7-17 | Initial state: no data, "All"/"All", empty year bounds, not loading, no reading, no error |
| App.Dashboard.Load | client/src/App.jsx:20-48 | A failed corpus fetch changes only the loading flag. Otherwise the corpus becomes both `data` and `allData`. The bounds become the first and last distinct year in text order, and are left alone for an empty corpus. The reading is stored, or the error text is set. Loading ends false |
| App.Dashboard.ShowCorpus | client/src/App.jsx:25-31 | The corpus becomes both `data` and `allData`. The bounds become the first and last distinct year in text order, and stay as they were for an empty corpus. Nothing else changes |
| App.Dashboard.ShowReading | client/src/App.jsx:34-40 | A served reading is stored and the error text kept. Otherwise the reading is kept and the error text is set. Nothing else changes |
| App.Dashboard.LoadFiltered | client/src/App.jsx:51-70 | Nothing changes while either bound is falsy (absent or 0). Otherwise `data` becomes the server filter's result for the current criteria, or stays as it was when the request fails. Loading ends false |
| ChatPanel.LeadingSpaceSpec | client/src/components/chat/ChatPanel.jsx:10 | The leading run `trim` removes is exactly the white space before the first other character |
| ChatPanel.TrailingSpaceSpec | client/src/components/chat/ChatPanel.jsx:10 | The trailing run `trim` removes is exactly the white space after the last other character |
| ChatPanel.TrimBlank | client/src/components/chat/ChatPanel.jsx:10 | The trimmed input is empty exactly when every character is white space. Otherwise it starts and ends with a character that is not white space |
| ChatPanel.Send | client/src/components/chat/ChatPanel.jsx:9-31 | Blank input changes nothing. Otherwise exactly two messages are appended after the untouched history: the raw input as the user's, then the answer as the assistant's, or the apology on failure. The input is cleared and loading is false |
| ChatPanel.SessionAppendOnly | client/src/components/chat/ChatPanel.jsx:12-26 | Over any sequence of typed texts and sends, the transcript only grows. It grows by two messages per non-blank send, alternating user and assistant |
| ChatPanel.Panel.constructor | client/src/components/chat/ChatPanel.jsx:5-7 | Empty history, empty input, not loading |
| ChatPanel.Panel.HandleSend | client/src/components/chat/ChatPanel.jsx:9-31 | The step-by-step handler reaches the state `Send` specifies, and the old history is a prefix of the new one |
| ChatPanel.Panel.HandleKeyDown | client/src/components/chat/ChatPanel.jsx:33-38 | Enter without Shift makes the `Send` transition. Any other key changes nothing |

## Left out

- **HTTP, Express, CORS, `app.listen`, loading `emissions.json`, and the axios
  calls.** The corpus is a sequence parameter, and each request outcome is a
  `Fetch` parameter.
- **What `Failed` covers.** `Failed` stands for any rejected request,
  including a non-2xx status, which axios rejects. HTTP status codes and
  `console.error` logging are not modelled.
- **A `null` first period in the intensity response.** This is a modelling
  choice: `Period` has no null case, so a present first period is always an
  object.
- **Non-integer intensity readings.** Readings are integers, so their text is
  `DecimalText`.
- **`parseInt` on malformed year strings.** Bounds are already-parsed
  integers. A truthy bound that is not a number would become NaN and empty
  the result (server/index.js:26-28); this is not modelled.
- **`toFixed(2)` and floating-point summation.** Emissions are exact `real`s,
  and the formatting is the parameter `fmt`.
- **Sector names that plain objects treat specially.** Sector names are
  treated as ordinary strings. The `Object.entries` rule that lists
  integer-like keys first is not modelled. Neither are inherited property
  names such as `constructor` or `__proto__`: in the plain `{}` accumulators
  (server/index.js:42-44, client/src/components/charts/SectorBarChart.jsx:11-13)
  such a key starts from the inherited value rather than 0.
- **A question that is not a string**, for example `undefined`, which the
  template renders as "undefined". A `contextData` that is not an array is
  `None`.
- **React rendering, recharts, styles, `useEffect` scheduling, async
  interleaving, and overlapping chat sends.**
  - `Load` and `LoadFiltered` are whole transitions.
  - The reload that `useEffect` triggers after a filter change is not
    scheduled by the model.
  - The `onChange` setters of the filter controls and of the chat input are
    field assignments that the model does not wrap.
  - `sendChat`'s request is the `reply` parameter. Its relation to
    `/api/chat` is stated by `ChatServer.HandleChat` separately.
- **The whole sorted year list in `load`.** Only its first and last elements
  are used, and those are modelled (`LexFirst`, `LexLast`).
- Aggregation.SortDesc: stability is proved only for the head of the sorted
  list (`SortDescHead`), which is the only element `summarizeData` reads. For
  the rest of the list, only the permutation and the descending order are
  proved.
- App.Countries: "All" is always first; a country actually named "All" would
  appear a second time after it, as in the source.
- Signals.WebInfo: lengths are counted in Unicode scalar values, where
  `slice` counts UTF-16 code units. The two differ only for characters
  outside the Basic Multilingual Plane.
