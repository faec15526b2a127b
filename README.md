# WorldSense-GDELT in Dafny

This project models the client-side logic and the data-cleaning Lambda of the
WorldSense-GDELT dashboard. The dashboard is a React front end over a GDELT
event index, and the Lambda fetches, normalises and stores GDELT records. The
model covers these parts:

- **Request parameters.** The typed API client (`src/api/index.ts`) builds a
  query string with `buildQs`. The five app entry files build the same
  requests with their own URL builders. Both are modelled over an ordered
  key/value list, so the two truthiness rules can be compared: `buildQs`
  drops only `undefined`, `null` and `""`, while the apps drop every falsy
  value, `0` included. An object is an ordered list of entries, and
  `URLSearchParams.set` and object spread are `JsObject.Assign` and
  `JsObject.Spread`.
- **Dashboard state.** Each app keeps a `params` object. The toolbar's
  `handleSearch` merges into it, `handleMapMove` replaces `bbox`, and the
  date inputs of `SimpleApp.jsx` replace `gte` and `lte`. This is
  `DashboardParams.Dashboard`, a class whose methods are proved against the
  pure merge functions.
- **Toolbar query.** `buildQuery` pushes the clauses onto an array and joins
  them with `" AND "`. `AppWithAuth.jsx` picks a single clause instead.
- **Popups and tables.** This covers the tone labels (three bands, or five
  in `AppFinal.jsx` and `AppSimple.jsx`) and the country lookups, with the
  three country tables copied verbatim. It also covers the popup title and
  heading fallbacks, the basename of the source file, the login name and
  the list caps.
- **Charts.** The tone buckets are counted in a loop. The country and theme
  rankings use a tally in first-occurrence order, a stable descending sort
  and the top eight. The statistics cards use the `reduce`/`Math.max`/`Math.min`
  aggregates, with JavaScript's `NaN` and `±Infinity` made explicit.
- **Hooks and store.** This covers the zustand filters store, the pagination
  hook and the debounce hook.
- **The Lambda** (`lambda_fetch_clean/lambda_function.py`). It cleans each
  record to the 22-field schema and builds the S3 object key, and the
  handler returns status 200 or 500.

Each module is one `.dfy` file: `Wrappers`, `Decimal`, `JsObject`, `Text`,
`QueryString`, `EndpointUrls`, `SearchQuery`, `DashboardParams`,
`FiltersStore`, `Tone`, `Ranking`, `Stats`, `CountryTables`, `Display`,
`Pagination`, `Debounce` and `LambdaClean`.

Where the five app files repeat one piece of logic, it is modelled once, and
the app-specific part is a parameter: `EndpointUrls.AppVariant` or the
country table.

Some facts that follow from the code, all proved below:

- A `tone` that is `undefined` is labelled "Very Negative" by the five-band
  `getToneDescription`, but "Neutral" by the three-band popup of `App.jsx`.
  Every comparison with `undefined` is false.
- A `toneMin` of `0` reaches the server through `buildQs`, but the app URL
  builders drop it.
- `buildMapUrl(base, {})` ends in `?`, while the app builders write no `?`
  when nothing is kept and no `size` is forced.
- `ThemeHeatChart` shortens labels to 12 characters, so two different themes
  can get the same bar label.

## Model

| member | source | states |
|---|---|---|
| QueryString.BuildQs | src/api/index.ts:5-12 | The `forEach` loop over the entries yields exactly `QsPairs(obj)`: the present entries, each set once as `String(v)`. |
| QueryString.QsPairs | src/api/index.ts:6-10 | The pairs `buildQs` sets: the entries whose value is not `undefined`, `null` or `""`, each once; `QsGet`, `QsPairsIsKept` and `QsDistinct` characterise them. |
| QueryString.Serialize | src/api/index.ts:11 | `URLSearchParams.toString()` as `k=v` pairs joined by `&`; `SerializeRoundTrip` shows the pairs are recoverable from it. |
| QueryString.BuildMapUrl | src/api/index.ts:14 | `${base}/map?` followed by the query; `UrlsShareQuery` and `EmptyParamsUrls` state its shape. |
| QueryString.BuildStatsUrl | src/api/index.ts:15 | `${base}/stats?` followed by the same query as the map URL (`UrlsShareQuery`). |
| QueryString.BuildSearchUrl | src/api/index.ts:16 | `${base}/search?` followed by the same query as the map URL (`UrlsShareQuery`). |
| QueryString.SetKept | src/api/index.ts:7-10 | The loop that `set`s every kept entry onto an empty `URLSearchParams` yields `Spread([], Kept(obj, keep))`. |
| QueryString.QsGet | src/api/index.ts:8-9 | For distinct keys, a key's value in the query is `String(v)` exactly when `v` is not `undefined`, `null` or `""`, and the key is absent otherwise. |
| QueryString.QsPairsIsKept | src/api/index.ts:7-10 | For distinct keys, the query keeps the input's entry order, minus the omitted values. |
| QueryString.QsDistinct | src/api/index.ts:9 | Every key appears at most once in the query. |
| QueryString.ZeroIsKept | src/api/index.ts:8 | Numeric `0` is kept as `"0"`. |
| QueryString.QsEmpty | src/api/index.ts:8-11 | The query is empty exactly when every value is omitted. |
| QueryString.KeptConcat | src/api/index.ts:7-10 | Filtering the entries distributes over concatenation. |
| QueryString.KeptGet | src/api/index.ts:7-10 | The filtered copy holds a key exactly when the original holds it with a kept value. |
| QueryString.KeptEmpty | src/api/index.ts:7-10 | The filtered copy is empty exactly when no value is kept. |
| QueryString.EmptyParamsUrls | src/api/index.ts:14-16 | With every value omitted, the three URLs are `base/map?`, `base/stats?` and `base/search?`, with the trailing `?`. |
| QueryString.UrlsShareQuery | src/api/index.ts:14-16 | The three URLs carry the same serialized query after their different paths. |
| QueryString.SerializeEmpty | src/api/index.ts:11 | The serialized query is empty exactly when there are no pairs. |
| QueryString.SerializeRoundTrip | src/api/index.ts:11 | Splitting the serialized query on `&` and `=` gives the pairs back, when keys hold neither separator and values hold no `&`. |
| JsObject.GetNone | src/api/index.ts:9 | A key reads `undefined` exactly when the object has no entry for it. |
| JsObject.AssignGet | src/api/index.ts:9 | After `set(k, v)` the key reads `v`, and every other key reads as before. |
| JsObject.AssignKeys | src/api/index.ts:9 | `set` keeps the keys distinct; it appends a new key and leaves the key order alone for an existing one. |
| JsObject.AssignTwice | src/App.jsx:901 | Setting a key twice is setting it to the second value. |
| JsObject.SpreadGet | src/App.jsx:113 | In `{ ...a, ...b }` a key reads its value in `b` if `b` has it, else its value in `a`. |
| JsObject.SpreadKeysPrefix | src/App.jsx:113 | Spreading keeps the keys of `a` first and in order. |
| JsObject.SpreadExistingKeys | src/App.jsx:113 | Spreading only existing keys leaves the key list unchanged. |
| JsObject.SpreadIdempotent | src/App.jsx:113 | Spreading the same object twice equals spreading it once. |
| JsObject.SpreadConcat | src/App.jsx:113 | Spreading `b + c` is spreading `b` and then `c`. |
| JsObject.SpreadOntoEmpty | src/App.jsx:869-872 | Spreading distinct entries onto an empty object copies them unchanged. |
| JsObject.GetRemoveKey | src/api/index.ts:9 | Dropping the later duplicates of a key, as `set` does, leaves every other key's value unchanged. |
| Text.SplitJoin | src/App.jsx:563 | Splitting a join on a character the parts do not contain gives the parts back. |
| Text.JoinEnds | src/App.jsx:107 | A join starts with its first part and ends with its last, with no leading or trailing separator. |
| EndpointUrls.DeriveQuery | src/App.jsx:868-892 | The `forEach`-and-`set` loop followed by `set('size', …)` yields `EndpointQuery(params, size)`. |
| EndpointUrls.EndpointQuery | src/App.jsx:868-875 | The query of one `useMemo` builder: the truthy entries copied with `set`, then the forced `size`; `EndpointQueryGet` and `SizeIsLast` characterise it. |
| EndpointUrls.FixedSize | src/App.jsx:873-890 | The `size` each app forces per endpoint; `AppSizes` states the values for all five apps. |
| EndpointUrls.UrlString | src/App.jsx:874 | `url.toString()`: base, path, then `?` and the query only when the query is not empty (`FalsyParamsStatsUrl`). |
| EndpointUrls.EndpointQueryGet | src/App.jsx:868-892 | A parameter reaches the URL exactly when its value is truthy, as `String(v)`; a forced `size` always reads as the fixed value. |
| EndpointUrls.SizeIsLast | src/App.jsx:873 | When the parameters have no `size`, the forced `size` is the last pair. |
| EndpointUrls.ZeroDroppedByApps | src/App.jsx:871 | A `0` value is dropped by the app builders but kept by `buildQs`. |
| EndpointUrls.FalsyParamsStatsUrl | src/App.jsx:877-883 | With only falsy parameters, the stats URL is `base/stats` with no `?`. |
| EndpointUrls.AppSizes | src/AppFinal.jsx:577-601 | `AppFinal.jsx` forces size 5000 on /map and 500 on /search. The other apps force 500 and 10. /stats gets no size. |
| SearchQuery.BuildQuery | src/App.jsx:102-108 | Pushing the clauses in order and joining them gives `Query(…)`. |
| SearchQuery.Query | src/App.jsx:102-108 | The clauses joined by " AND "; `BuildQuery` proves the push loop equals it, and `QueryEmptyIff`, `QueryEnds` and `QueryAllClauses` characterise it. |
| SearchQuery.QueryEmptyIff | src/App.jsx:312 | The query is `""` exactly when no clause applies: not both type and value, no country, no actor. The toolbar shows "No filters applied" exactly then. |
| SearchQuery.QueryEnds | src/AppFinal.jsx:289-295 | With a country set, the query starts with the `type:value` clause or the country clause, and ends with the actor clause or the country clause. |
| SearchQuery.QueryAllClauses | src/AppSimple.jsx:202-208 | With all four fields set, the query is `type:value AND country:c AND actor:a`. |
| SearchQuery.QueryExample | src/App.jsx:104-107 | A theme search for HEALTH in CN gives `theme:HEALTH AND country:CN`. |
| SearchQuery.AuthQueryIsSelectedClause | src/AppWithAuth.jsx:244-253 | The single-clause query of the selected search type. A theme search gives the bare value. A country or actor search gives the same clause `buildQuery` would write for that field alone. |
| SearchQuery.AuthQuery | src/AppWithAuth.jsx:244-253 | The single clause that `searchType` selects; `AuthQueryIsSelectedClause` and `AuthQueryEmptyIff` characterise it. |
| SearchQuery.AuthQueryEmptyIff | src/AppWithAuth.jsx:245-253 | The single-clause query is empty exactly when the selected type's field is empty, or the type is none of theme, country and actor. |
| DashboardParams.Dashboard.constructor | src/App.jsx:820-825 | Each app's initial `params`: the App/AppSimple/AppWithAuth dates and bbox with `q: ""`, AppFinal's whole-world 2015 range, and SimpleApp's three keys. |
| DashboardParams.Dashboard.HandleSearch | src/App.jsx:110-113 | The new query is `buildQuery`'s, and `params` becomes `{ ...prev, gte, lte, bbox, q }`. Keys stay distinct. |
| DashboardParams.Dashboard.AuthHandleSearch | src/AppWithAuth.jsx:244-262 | `params` is replaced by exactly `{ gte, lte, bbox, q }` with the single-clause query. Other keys are dropped. |
| DashboardParams.Dashboard.HandleMapMove | src/App.jsx:900-902 | `params` becomes `{ ...prev, bbox }`. |
| DashboardParams.Dashboard.SetStartDate | src/SimpleApp.jsx:437 | `params` becomes `{ ...prev, gte: value }`. |
| DashboardParams.Dashboard.SetEndDate | src/SimpleApp.jsx:452 | `params` becomes `{ ...prev, lte: value }`. |
| DashboardParams.MergeSearchGet | src/AppFinal.jsx:297-301 | After the merge, gte, lte, bbox and q read the new values, and every other key reads as before. |
| DashboardParams.MergeSearch | src/App.jsx:110-113 | `prev => ({ ...prev, gte, lte, bbox, q })`; `MergeSearchGet`, `MergeSearchKeys` and `MergeAgreesWithReplace` characterise it. |
| DashboardParams.With | src/App.jsx:900-902 | `prev => ({ ...prev, [k]: v })`; `WithGet` and `WithTwice` characterise it. |
| DashboardParams.MergeSearchKeys | src/AppSimple.jsx:210-215 | When the four keys already exist, the merge keeps the key list unchanged. |
| DashboardParams.MergeAgreesWithReplace | src/AppWithAuth.jsx:255-260 | For params holding exactly the four keys, the merging and the replacing `handleSearch` give the same object. |
| DashboardParams.WithGet | src/App.jsx:901 | `{ ...prev, k: v }` reads `v` at `k` and `prev` elsewhere. |
| DashboardParams.WithTwice | src/App.jsx:900-902 | Two map moves in a row equal the last one. |
| DashboardParams.SimpleAppSendsNoQuery | src/SimpleApp.jsx:334-365 | No request of `SimpleApp.jsx` ever carries `q`, in any reachable state. |
| DashboardParams.InitialUrlsHaveNoQuery | src/App.jsx:820-825 | The initial empty `q` is dropped from every first request of every app. |
| DashboardParams.InitialKept | src/App.jsx:868-875 | Of `App.jsx`'s initial params, the truthy entries are gte, lte and bbox; the empty `q` is dropped. |
| DashboardParams.InitialMapQuery | src/App.jsx:868-875 | The first map request of `App.jsx` is exactly gte, lte and bbox, then `size=500`. |
| DashboardParams.SearchQueryReachesUrl | src/App.jsx:110-113 | After a search, the request carries `q` exactly when the query is not empty, with the query as its value. |
| FiltersStore.Store.constructor | src/store/filters.ts:13-17 | The store starts with April 2019, bbox `70,15,135,55`, an empty `q` and no tone bounds. |
| FiltersStore.Store.Set | src/store/filters.ts:18 | `set(partial)` makes the state `{ ...s, ...partial }`: each key of the partial overwrites its field, and the others keep their values. |
| FiltersStore.Merge | src/store/filters.ts:18 | `{ ...s, ...partial }` over the six filter keys; the `Merge…` lemmas and `NoValidation` characterise it. |
| FiltersStore.MergeNoChange | src/store/filters.ts:18 | An empty partial leaves the state unchanged. |
| FiltersStore.MergeIdempotent | src/store/filters.ts:18 | Setting the same partial twice is setting it once. |
| FiltersStore.MergeCombine | src/store/filters.ts:18 | Two sets in a row equal one set of the two partials combined, the second winning key by key. |
| FiltersStore.MergeTotal | src/store/filters.ts:18 | A partial naming all six keys replaces the whole state, whatever it was. |
| FiltersStore.NoValidation | src/store/filters.ts:18 | A reversed date range or tone range is stored exactly as given; nothing is validated. |
| FiltersStore.SetTwice | src/store/filters.ts:18 | Two `set` calls equal one `set` of the combined partial. |
| FiltersStore.DefaultsQuery | src/store/filters.ts:14-17 | The default filters give the query `gte`, `lte`, `bbox`, without the empty `q`. |
| FiltersStore.ZeroToneSent | src/store/filters.ts:8 | A stored `toneMin` of 0 is sent as `"0"`. |
| Tone.DescribeMonotone | src/AppFinal.jsx:144-150 | The five-band label is monotone in the tone. |
| Tone.ThreeBand | src/App.jsx:367 | `tone > 2 ? "Positive" : tone < -2 ? "Negative" : "Neutral"` with JavaScript comparisons on missing and null tones; `MissingToneIsVeryNegative` and `DescribeRefinesThreeBand` relate it to the five bands. |
| Tone.Describe | src/AppFinal.jsx:144-150 | `getToneDescription`, five bands; `DescribeMonotone`, `DescribeEdges` and `DescribeRefinesThreeBand` characterise it. |
| Tone.DescribeEdges | src/AppFinal.jsx:145-149 | 5 is "Positive", 2 and -2 are "Neutral", and -5 is "Very Negative". |
| Tone.DescribeRefinesThreeBand | src/AppSimple.jsx:140-146 | Collapsing the five bands to three agrees with the `App.jsx` popup label for every tone, except exactly the missing tone. |
| Tone.MissingToneIsVeryNegative | src/App.jsx:367 | A missing tone is "Very Negative" in five bands but "Neutral" in three. A `null` tone is "Neutral" in both. |
| Tone.AuthDescribeAgrees | src/AppWithAuth.jsx:176-182 | The label is "N/A" exactly for `null` and `undefined`. Otherwise it is the three-band label with the value. |
| Tone.AuthDescribe | src/AppWithAuth.jsx:176-182 | `getToneDescription` of this app: "N/A" for null and undefined, otherwise the band with the value (`AuthDescribeAgrees`). |
| Tone.ChartAgreesWithPopup | src/components/Charts.jsx:145-148 | The chart's bucket (falsy tone taken as 0) is the band the `App.jsx` popup shows. |
| Tone.ChartBucket | src/components/Charts.jsx:145-148 | The bar of `tone || 0`; `ChartAgreesWithPopup` shows it is the popup band. |
| Tone.SeriesToneFirstTruthy | src/components/Charts.jsx:189 | The series tone is the first truthy value of `tone_avg`, `averageTone` and `avg_tone`, else 0. |
| Tone.SeriesTone | src/components/Charts.jsx:189 | `tone_avg || averageTone || avg_tone || 0`; `SeriesToneFirstTruthy` characterises it. |
| Tone.CountTones | src/components/Charts.jsx:143-149 | The counting loop yields `BucketCounts` of the buckets, and the three counts add up to the number of items. |
| Tone.CountSeriesTones | src/components/Charts.jsx:186-193 | The same for the stats-series fallback with its three tone fields. |
| Tone.BucketCountsSum | src/components/Charts.jsx:186-193 | Each count is the number of items in its band, and the counts sum to the length. |
| Tone.BucketCounts | src/components/Charts.jsx:143-149 | The three bar counts; `BucketCountsSum`, `BucketCountsAppend` and `BucketCountsSwap` characterise them. |
| Tone.BucketCountsAppend | src/components/Charts.jsx:144 | The counts of a concatenation are the sums of the counts. |
| Tone.BucketCountsSwap | src/components/Charts.jsx:144 | The counts do not depend on the item order. |
| Tone.CountExample | src/components/Charts.jsx:146-148 | Tones -6, -3, 0, 3 and 6 give 2 negative, 1 neutral and 2 positive. |
| Ranking.CountNames | src/components/Charts.jsx:66-70 | The `countryCount[c] = (countryCount[c] \|\| 0) + 1` loop yields `Tally(names)`. |
| Ranking.Tally | src/components/Charts.jsx:66-70 | The `countryCount` object; `CountNames`, `TallyKeys`, `TallyGet` and `TallyTotal` characterise it. |
| Ranking.TallyKeys | src/components/Charts.jsx:72 | The tally has distinct keys in first-occurrence order. |
| Ranking.BumpGet | src/components/Charts.jsx:69 | `count[k] = (count[k] \|\| 0) + 1` adds one to that name's count, or starts it at one, and leaves the other names alone. |
| Ranking.TallyGet | src/components/Charts.jsx:69 | A name's count is its number of occurrences; a name that never occurs has no entry. |
| Ranking.TallyTotal | src/components/Charts.jsx:66-70 | The counts sum to the number of items. |
| Ranking.FirstOccurrencesElements | src/components/Charts.jsx:72 | A name is a key exactly when it occurs. |
| Ranking.SortDescSorted | src/components/Charts.jsx:73 | The sort yields a descending permutation of the entries. |
| Ranking.SortDesc | src/components/Charts.jsx:73 | `sort(([,a],[,b]) => b - a)` as a stable insertion sort; `SortDescSorted` and `SortDescStable` characterise it. |
| Ranking.SortDescStable | src/components/Charts.jsx:73 | The sort is stable: entries with equal counts keep their relative order. |
| Ranking.InsertDescSorted | src/components/Charts.jsx:73 | Inserting into a descending list keeps it descending. |
| Ranking.InsertDescPerm | src/components/Charts.jsx:73 | Inserting adds exactly the one entry. |
| Ranking.Top | src/components/Charts.jsx:74 | At most eight entries are shown. |
| Ranking.RankedSize | src/components/Charts.jsx:72-75 | Exactly min(8, distinct names) entries are shown. |
| Ranking.RankedEntry | src/components/Charts.jsx:69-75 | A shown entry is an occurring name with its number of occurrences. |
| Ranking.RankedFirst | src/components/Charts.jsx:72-75 | No entry left out has a larger count than an entry shown. |
| Ranking.RankedCharacterised | src/components/Charts.jsx:72-75 | Each shown entry is an occurring name with its count. No omitted name has a larger count than a shown one. Exactly min(8, distinct names) are shown. |
| Ranking.Ranked | src/components/Charts.jsx:72-75 | Entries, sorted, first eight; `RankedSize`, `RankedEntry`, `RankedFirst` and `RankedCharacterised` characterise it. |
| Ranking.CountrySlices | src/components/Charts.jsx:62-75 | The pie slices: `Ranked` of the country names with "Unknown" for a missing one, so `RankedCharacterised` applies to them. |
| Ranking.TrimShape | src/components/Charts.jsx:236 | `trim()` removes exactly the leading and trailing JavaScript whitespace. It yields `""` exactly for all-whitespace strings. |
| Ranking.TrimStartShape | src/components/Charts.jsx:236 | The trimmed start is a suffix beginning with a non-space, and everything dropped is whitespace. |
| Ranking.TrimEndShape | src/components/Charts.jsx:236 | The trimmed end is a prefix ending with a non-space, and everything dropped is whitespace. |
| Ranking.ThemeNameFallbacks | src/components/Charts.jsx:234-236 | A missing or empty theme is "General". A whitespace-only theme trims to `""`. Padded names merge with unpadded ones. |
| Ranking.ThemeName | src/components/Charts.jsx:234-236 | `(item.theme || "General").toString().trim()`; `ThemeNameFallbacks` and `TrimShape` characterise it. |
| Ranking.LabelShape | src/components/Charts.jsx:244 | Names of up to 12 characters are shown whole. Longer ones show their first 12 characters and `...`, so two themes can share a label. |
| Ranking.Label | src/components/Charts.jsx:244 | The bar label cut at twelve characters with "..."; `LabelShape` characterises it. |
| Ranking.IntensityMonotone | src/components/Charts.jsx:246 | The intensity never falls as the count grows. |
| Ranking.Intensity | src/components/Charts.jsx:246 | High above 50, Medium above 20, else Low; `IntensityMonotone` characterises it. |
| Ranking.ThemeBarsCharacterised | src/components/Charts.jsx:240-248 | Each bar is the i-th ranked theme: its label, its count as heat, its intensity and the key `theme-i`. |
| Ranking.ThemeBars | src/components/Charts.jsx:230-248 | The theme bars; `ThemeBarsCharacterised` gives each bar from the ranked themes. |
| Stats.MaxOf | src/components/Charts.jsx:318 | `Math.max` of a non-empty list is an element no smaller than any element. |
| Stats.MinOf | src/components/Charts.jsx:319 | `Math.min` of a non-empty list is an element no larger than any element. |
| Stats.RoundDivNearest | src/components/Charts.jsx:317 | `Math.round(t / n)` is the integer nearest to `t / n`, with halves rounded up. |
| Stats.SumBounds | src/components/Charts.jsx:316 | The total lies between `n·min` and `n·max`. |
| Stats.AverageBetween | src/components/Charts.jsx:316-319 | The rounded daily average lies between the lowest and the peak day. |
| Stats.RoundBetween | src/components/Charts.jsx:317 | Rounding a quotient bounded by `lo` and `hi` stays within them. |
| Stats.MinMaxPrefix | src/components/Charts.jsx:318-319 | Adding a day never lowers the peak or raises the lowest day. |
| Stats.ChartCardsShape | src/components/Charts.jsx:313-319 | With all counts present and at least one day, the four cards are integers, lowest ≤ average ≤ peak, and every day's count lies between lowest and peak. A missing count makes all four `NaN`. An empty series gives 0, `NaN`, `-Infinity` and `Infinity`. |
| Stats.ChartCards | src/components/Charts.jsx:313-319 | The four cards with `NaN` and infinities as JavaScript gives them; `ChartCardsShape` characterises them. |
| Stats.FallbackCountrySlice | src/components/Charts.jsx:109-111 | The single "Multiple Countries" slice holding the total with missing counts as 0; `SumBounds` bounds that total. |
| Stats.SimpleAppAgreesWithCharts | src/SimpleApp.jsx:172-177 | With all counts present, SimpleApp's three cards equal the first three `Charts.jsx` cards. With a count missing, `Charts.jsx` shows a `NaN` total while SimpleApp still shows an integer average no larger than its peak. |
| Stats.SimpleAppCards | src/SimpleApp.jsx:172-177 | The three cards of `SimpleApp.jsx` with `count || 0`; `SimpleAppAgreesWithCharts` relates them to the `Charts.jsx` cards. |
| Display.CountryShownCases | src/AppFinal.jsx:162 | The shown country is the table's name for a known code, the raw code for an unknown one, and "Unknown" exactly when the code is missing or empty. |
| Display.CountryShown | src/AppFinal.jsx:162 | `countryMap[c] || c || "Unknown"`; `CountryShownCases` characterises it, and `CountryTableFacts` pins it on the tables. |
| Display.AuthCountryAgrees | src/AppWithAuth.jsx:119-173 | For any table, `getCountryName(code) \|\| 'Unknown'` shows what the shared lookup shows; so AppWithAuth's header agrees with the other apps' on its own table. |
| Display.AuthCountryName | src/AppWithAuth.jsx:172 | `countryMap[countryCode] || countryCode`; `AuthCountryAgrees` relates it to `CountryShown`. |
| CountryTableFacts.CongoNames | src/AppSimple.jsx:89-138 | In AppSimple's table, the last of the duplicate "CD" entries wins: "Democratic Republic of the Congo". |
| CountryTableFacts.AppFinalIslands | src/AppFinal.jsx:96-141 | The `AppFinal.jsx` popup shows "Puerto Rico" for "PR" and "British Virgin Islands" for "VG", two of the entries at the end of the table. |
| CountryTableFacts.AuthLookups | src/AppWithAuth.jsx:120-172 | `getCountryName("PR")` is "Puerto Rico", and the popup shows that name. |
| Display.EventTitleShape | src/AppFinal.jsx:167-170 | The title is actor1 (or "Unknown Actor"), then ` vs actor2` only when actor2 is not empty, then ` - ` and the event type (or "Global Event"). |
| Display.EventTitle | src/AppFinal.jsx:167-170 | The popup title; `EventTitleShape` characterises it. |
| Display.Heading | src/App.jsx:349 | The heading is the default or one of the given candidates. |
| Display.HeadingFirstGiven | src/AppWithAuth.jsx:189 | The heading is the first non-empty candidate. |
| Display.HeadingDefault | src/AppSimple.jsx:160 | With no candidate given, the heading is the default. |
| Display.Headings | src/App.jsx:349 | The `\|\|` chains of the three popups are instances of the heading rule. |
| Display.SourceBasename | src/App.jsx:563 | A given source path shows a name with no `/`. |
| Display.SourceBasenameOfPath | src/App.jsx:563 | For `dir/…/file` the column shows `file`, and a missing or empty path shows `-`. |
| Display.LoginName | src/SimpleApp.jsx:29 | The derived name is the prefix of the email before the first `@`. |
| Display.HandleLoginShape | src/SimpleApp.jsx:25-30 | The login happens exactly when both fields are non-empty, with the name before the `@`. |
| Display.HandleLogin | src/SimpleApp.jsx:24-31 | `onLogin({ email, name })` when both fields are filled, otherwise nothing; `HandleLoginShape` characterises it. |
| Display.LoginNameExample | src/SimpleApp.jsx:29 | "alice@example.com" logs in as "alice". |
| Display.Take | src/App.jsx:323 | `slice(0, n)` keeps `min(n, length)` elements and is a prefix. |
| Display.TakeKeepsPrefix | src/SimpleApp.jsx:512 | Elements below the cap are kept in place, and a short list is kept whole. |
| Pagination.Pager.constructor | src/hooks/usePagination.ts:3-4 | The page starts at 1, and the page size defaults to 10. |
| Pagination.Pager.SetPage | src/hooks/usePagination.ts:4 | `setPage` stores the page as given, unclamped. |
| Pagination.Pager.CurrentInfo | src/hooks/usePagination.ts:7 | The `info` object has at least one page, and page 1 starts at offset 0. |
| Pagination.PageCount | src/hooks/usePagination.ts:5 | There is always at least one page. |
| Pagination.PageCountCovers | src/hooks/usePagination.ts:5 | For `total > 0`: `(pageCount - 1)·pageSize < total ≤ pageCount·pageSize`. With no items there is one page. |
| Pagination.CeilDivBounds | src/hooks/usePagination.ts:5 | `Math.ceil(a / d)` is the least `c` with `a ≤ c·d`. |
| Pagination.OffsetSteps | src/hooks/usePagination.ts:6 | Page 1 starts at 0, and each page starts `pageSize` after the previous one. |
| Pagination.OffsetWithinItems | src/hooks/usePagination.ts:5-6 | Pages 1 to `pageCount` start inside the items. A page past `pageCount` starts at or beyond the end. |
| Debounce.Step | src/hooks/useDebounce.ts:5-8 | A call replaces the pending arguments. A timer that fires runs `fn` once with the pending arguments, or does nothing. Unmount clears the pending call. |
| Debounce.Debouncer.Call | src/hooks/useDebounce.ts:6-8 | The returned function updates the state by `Step(_, Call(args))`. |
| Debounce.Debouncer.Fire | src/hooks/useDebounce.ts:8 | The timer firing updates the state by `Step(_, Fire)`. |
| Debounce.Debouncer.Unmount | src/hooks/useDebounce.ts:5 | The cleanup updates the state by `Step(_, Unmount)`. |
| Debounce.BurstKeepsLast | src/hooks/useDebounce.ts:7-8 | A burst of calls leaves exactly the last call's arguments pending, and nothing runs. |
| Debounce.LastCallWins | src/hooks/useDebounce.ts:7-8 | A burst of calls followed by the timer runs `fn` once, with the last call's arguments. |
| Debounce.UnmountCancels | src/hooks/useDebounce.ts:5 | After unmount, a timer event runs nothing. |
| Debounce.CallAfterUnmount | src/hooks/useDebounce.ts:6-8 | A call after unmount still schedules and runs `fn`: there is no mounted guard. |
| Debounce.InvocationsBounded | src/hooks/useDebounce.ts:7-8 | The run history only grows. `fn` runs at most once per timer event, and at most once per call plus the call pending at the start. |
| Debounce.InvokedWereCalled | src/hooks/useDebounce.ts:8 | Every argument `fn` receives was passed by a call, or was already pending. |
| Debounce.FromInitial | src/hooks/useDebounce.ts:3-9 | From the first render, `fn` runs no more often than the function is called, and only with passed arguments. |
| LambdaClean.CleanData | lambda_fetch_clean/lambda_function.py:103-133 | The loop appending cleaned records yields `CleanAll`: all records, or the first exception. |
| LambdaClean.CleanAllShape | lambda_fetch_clean/lambda_function.py:103-130 | On success, there is one cleaned record per input record, in the same order, each stamped with its own clock reading. |
| LambdaClean.CleanAll | lambda_fetch_clean/lambda_function.py:97-133 | `clean_gdelt_data`; `CleanData` proves the loop equals it, and `CleanAllShape`, `CleanAllFails` and `CleanAllFirstFailure` characterise it. |
| LambdaClean.CleanAllFails | lambda_fetch_clean/lambda_function.py:104-130 | The batch fails exactly when some record fails. |
| LambdaClean.CleanAllFirstFailure | lambda_fetch_clean/lambda_function.py:104-130 | The batch fails with the exception of the first failing record. |
| LambdaClean.CleanFieldsShape | lambda_fetch_clean/lambda_function.py:106-129 | A cleaned record has the schema's keys in order, each value given by its field's rule. |
| LambdaClean.CleanFieldsFails | lambda_fetch_clean/lambda_function.py:106-129 | A record fails exactly when one of its fields fails, with the exception of the first failing field in literal order. |
| LambdaClean.CleanRecordKeys | lambda_fetch_clean/lambda_function.py:106-129 | Every cleaned record has the same 22 keys. Input keys outside the schema are dropped. |
| LambdaClean.CleanRecord | lambda_fetch_clean/lambda_function.py:106-129 | The cleaned dict of one record, or the exception its conversions raise; `CleanFieldsShape`, `CleanRecordKeys`, `CleanRecordValues` and `NumbersNeverFail` characterise it. |
| LambdaClean.CleanRecordValues | lambda_fetch_clean/lambda_function.py:107-128 | Text fields are copied, or `''` when missing. Float and int fields are converted, or 0 when missing. `processed_at` is the clock reading. |
| LambdaClean.NumbersNeverFail | lambda_fetch_clean/lambda_function.py:116-125 | A record whose numeric fields are missing or numbers always cleans. |
| LambdaClean.SimulatedFetchNumeric | lambda_fetch_clean/lambda_function.py:60-90 | The simulated record holds numbers in all seven numeric fields. |
| LambdaClean.NoneAborts | lambda_fetch_clean/lambda_function.py:117 | A `None` in `num_mentions` raises and aborts the record. |
| LambdaClean.Truncate | lambda_fetch_clean/lambda_function.py:117 | `int()` of a float truncates toward zero. |
| LambdaClean.DatePathRoundTrip | lambda_fetch_clean/lambda_function.py:142 | Reading `YYYY/MM/DD` back gives the timestamp's year, month and day. |
| LambdaClean.DatePathExact | lambda_fetch_clean/lambda_function.py:142 | Conversely, a string read as a valid date is that date's `YYYY/MM/DD`. |
| LambdaClean.StampRoundTrip | lambda_fetch_clean/lambda_function.py:142 | Reading `YYYYMMDD_HHMMSS` back gives the timestamp's six fields. |
| LambdaClean.StampExact | lambda_fetch_clean/lambda_function.py:142 | Conversely, a string read as a valid timestamp is that timestamp's `YYYYMMDD_HHMMSS`. |
| LambdaClean.S3KeyLayout | lambda_fetch_clean/lambda_function.py:142 | The key is `processed/`, the date path, `/gdelt_`, the stamp and `.json`, at fixed positions. |
| LambdaClean.S3KeyRoundTrip | lambda_fetch_clean/lambda_function.py:142 | Reading the key's two timestamps gives back the timestamp's fields, and the directory and the file name agree on the date. |
| LambdaClean.ParseKeyExact | lambda_fetch_clean/lambda_function.py:142 | Conversely, any string read as the fields of a valid timestamp is that timestamp's key. |
| LambdaClean.S3KeyInjective | lambda_fetch_clean/lambda_function.py:142 | Timestamps in different seconds get different keys. |
| LambdaClean.S3Key | lambda_fetch_clean/lambda_function.py:142 | The key is 47 characters long. |
| LambdaClean.DatePath | lambda_fetch_clean/lambda_function.py:142 | `strftime('%Y/%m/%d')` is 10 characters long. |
| LambdaClean.Stamp | lambda_fetch_clean/lambda_function.py:142 | `strftime('%Y%m%d_%H%M%S')` is 15 characters long. |
| LambdaClean.EventId | lambda_fetch_clean/lambda_function.py:70 | The simulated id `EVENT_YYYYMMDDHHMMSS_001` is 24 characters long. |
| LambdaClean.IsoFormat | lambda_fetch_clean/lambda_function.py:41 | `isoformat()` is 19 characters long, or 26 with microseconds. |
| LambdaClean.SimulateFetch | lambda_fetch_clean/lambda_function.py:60-95 | The simulated fetch yields exactly one record. |
| LambdaClean.ProcessOutcome | lambda_fetch_clean/lambda_function.py:19-58 | The status is 200 exactly when every record cleans and the upload succeeds, and then it reports `len(cleaned_data)` records. Otherwise the status is 500, and the body's `error` is the exception raised: the failing record's exception when cleaning fails (`ProcessFirstFailure` names the record), or the upload's exception when storing fails. |
| LambdaClean.ProcessFirstFailure | lambda_fetch_clean/lambda_function.py:29-58 | When record i is the first to fail, the handler answers 500 with record i's exception as `error`. |
| LambdaClean.Process | lambda_fetch_clean/lambda_function.py:29-58 | Clean, store, answer 200 or 500; `ProcessOutcome` and `ProcessFirstFailure` characterise it. |
| LambdaClean.Handler | lambda_fetch_clean/lambda_function.py:11-58 | `lambda_handler` on the simulated fetch; `HandlerOutcome` characterises it. |
| LambdaClean.HandlerOutcome | lambda_fetch_clean/lambda_function.py:26-44 | With the simulated fetch, the handler answers 200 with one record exactly when the upload succeeds. |
| Decimal.PaddedRoundTrip | lambda_fetch_clean/lambda_function.py:142 | A zero-padded `strftime` field reads back as its number. |
| Decimal.ParsePaddedRoundTrip | lambda_fetch_clean/lambda_function.py:142 | Every digit string of width `w` is the padded form of its value. |
| Decimal.NatToDecimalRoundTrip | src/components/Charts.jsx:247 | `String(i)` of an index reads back as `i`. |

## Left out

- URL percent-encoding by `URL`/`URLSearchParams`: queries are key/value lists, and `Serialize` joins them with `&` and `=` without encoding.
- `Object.entries` enumerates integer-like keys first. The model keeps insertion order, since every key used here is a name.
- JSON encoding, floating-point formatting (`toFixed(5)` bbox strings, `toLocaleString`), `parseFloat`, and the IEEE details of tones and counts: numbers are reals or integers.
- Python's string-to-number parsing in `float()`/`int()` is the parameter `Parsers`. Python's exception texts are replaced by the `Failure` datatype.
- `datetime.utcnow()`, the S3 `put_object` and the SNS notifications are parameters or left out. The upload outcome is a parameter, and notification failures are swallowed by the source and never change the response.
- LambdaClean.ValidTimestamp: requires years from 1000 on, because `strftime('%Y')` padding for earlier years depends on the platform.
- Pagination.PageCount: requires `pageSize > 0`. JavaScript's `NaN`/`Infinity` page counts for a zero or negative size are not modelled.
- The `useFetch` hooks and their `isMounted` guard, authentication (Amplify/Cognito), user tracking, configuration files, and all rendering, including the Leaflet and Recharts components.
- The toolbar's local-state re-sync effect (`src/AppWithAuth.jsx:237-242`), which only copies `params` back into the input fields.
- `FiltersStore.Partial` has no explicit `undefined` for the string fields, and the store's own `set` function field is not part of the state.
- The sign display and background colour of the tone badge (`src/App.jsx:361-364`) and the theme fallback splits computed with `Math.round(total * 0.6)` in `src/components/Charts.jsx`.
- Non-string themes and countries (`toString()` of other values), an item without `_source` (a `TypeError` in the source), and country codes that name inherited object properties such as `toString`.
- The bar-height scaling of `src/SimpleApp.jsx`.
- Display.CountryShownCases: stated for tables without an empty key and without empty names, which holds for the three tables. It is not proved that "CD" is absent from AppFinal's table.
- Debounce: the delay is not modelled. The timer elapsing is an explicit event, and only the order of calls, timer events and unmount is captured.
- Ranking.Label: lengths and the twelve-character cut count Dafny characters, while JavaScript's `length` and `substring(0, 12)` count UTF-16 code units, so a theme containing a character outside the Basic Multilingual Plane is cut at a different place (and may be split inside a surrogate pair) in the source.
- Stats.ChartCards: a `count` that is `null` is not represented. The source's `reduce`, `Math.max` and `Math.min` read `null` as 0, but the model's `None` stands for a missing `count`, which gives `NaN`.
