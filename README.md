# B3 stock monitor: signal engine, suggestion lists, alert dispatch and scan gate

The system watches stocks on the Brazilian exchange. It turns each quote into
a technical reading: SMA50, SMA200, a 14-period RSI and a Buy/Venda/Hold
signal from a six-rule chain. From the readings it builds a short list of buy
suggestions and a list of trending stocks.

For each user with automatic alerts, it composes a WhatsApp message from a
template. It sends that message through the user's webhook when one of three
things holds: this is the first bulletin, the content changed, or a new clock
hour began. Every send happens inside the user's working hours. An HTTP route
triggers the per-user scan. It is guarded by the following, in order:
- a master switch;
- the working-hours window;
- an in-process lock of 90 seconds;
- the time of the last scan log row.

The model has five modules:

- `Common` (common.dfy) holds the JavaScript behaviour the core relies on:
  - `s || default` for string settings (`OrDefault`);
  - the lexicographic `<` on strings, with the proof that on "HH:MM" readings it is the numeric order of the time of day;
  - `String.prototype.replace` with a string pattern, which replaces the first occurrence only;
  - `Array.prototype.join`;
  - truncation of an instant to its clock hour (`HourBucket`);
  - decimal rendering of counters.
- `Indicators` (indicators.dfy) models `calculateSMA` and `calculateRSI`, the rule chain, and `analyzeStock`'s fallbacks and null cases. Prices are exact reals. The RSI loop is a method proved against a recursive specification.
- `Selection` (selection.dfy) models `getTopSuggestions` and `getTrendingStocks` over the list of analyses:
  - categorise;
  - keep the first per symbol;
  - stable sort;
  - slice;
  - fill up trending with the best movers.

  The trending lemmas are stated over `TrendingFrom(q, others)`. Here `q` is the list of qualifiers (`Qualifying`) and `others` the analyses that share no symbol with a qualifier (`NotChosen`). `TrendingOf(xs)` is `TrendingFrom(Qualifying(xs), NotChosen(xs, Qualifying(xs)))`.
- `Alerts` (alerts.dfy) models `processAlerts`. The class `AlertEngine` holds:
  - the user's settings;
  - the two persisted fields `lastAlertHash` and `lastAlertTime`;
  - the append-only system log;
  - the list of messages handed to the webhook.

  The pure decision (`Decide`), the state update (`After`) and the log rows (`LogFor`) are specification functions. The method is proved against them.
- `Scan` (scan.dfy) models the `GET` handler of the scan route. The class `Scanner` holds the module-level `lastScanTime` lock, the log rows and the admin reports. `Gate` is the guard chain.

A computed RSI of exactly 0 arises when none of the last 14 moves rose and at least one fell; a flat move counts as a gain of 0. That RSI reads as the neutral 50, because `calculateRSI(closes) || 50` treats 0 like null. The model keeps this behaviour (`Indicators.ComputedRsiZero`).

A stored `lastScanTime` of 0 is falsy, so it never throttles. `Scan.LockHeld` models the check as written.

## Model

| member | source | states |
|---|---|---|
| Common.OrDefault | src/services/alert.service.ts:52-53 | an empty setting falls back to the default; a non-empty one is kept |
| Common.LexTrichotomy | src/services/alert.service.ts:55 | string `<` is a strict total order: exactly one of `a<b`, `a==b`, `b<a` holds |
| Common.LexLessTransitive | src/services/alert.service.ts:55 | string `<` is transitive |
| Common.LexLess | src/services/alert.service.ts:55 | JavaScript `<` on strings: the first differing character decides and a proper prefix is smaller (definition; its order properties are the two lemmas around it) |
| Common.LexLe | src/services/alert.service.ts:55 | JavaScript `<=` on strings, as not greater (definition) |
| Common.ClockOrderIsNumeric | src/services/alert.service.ts:55 | on "HH:MM" readings, string `<` agrees with the numeric order of HHMM |
| Common.InWindow | src/app/api/scan/route.ts:53 | the inclusive window `start <= now <= end` compared as strings (definition; `WindowIsNumericInterval` states its meaning) |
| Common.WindowIsNumericInterval | src/app/api/scan/route.ts:53 | the string working-hours window on "HH:MM" readings is the numeric interval from start to end |
| Common.HourBucket | src/services/alert.service.ts:38-44 | the bucket `h` is the hour containing the instant: `h*3600000 <= ms < (h+1)*3600000` |
| Common.HourBucketMonotone | src/services/alert.service.ts:48 | hour buckets never decrease as time goes forward |
| Common.IndexOf | src/services/alert.service.ts:24-26 | the result is the first position where the pattern occurs, or none when it occurs nowhere |
| Common.ReplaceFirst | src/services/alert.service.ts:24-26 | without an occurrence the string is unchanged; otherwise only the first occurrence is replaced and everything around it is kept |
| Common.LaterOccurrenceSurvives | src/services/alert.service.ts:24-26 | any later occurrence of the pattern survives, shifted by the change in length |
| Common.Join | src/services/alert.service.ts:13 | the empty list joins to "" and a single line joins to itself |
| Common.NatToString | src/app/api/scan/route.ts:132 | the rendering is a non-empty string of digits that reads back as the number |
| Indicators.SumBounds | src/lib/yahoo-finance.ts:21 | the sum of values in [lo, hi] lies between n*lo and n*hi |
| Indicators.Sma | src/lib/yahoo-finance.ts:18-22 | null exactly when there are fewer values than the period |
| Indicators.SmaWithinRange | src/lib/yahoo-finance.ts:18-22 | the average of the last `period` values lies within their bounds |
| Indicators.MeanBounds | src/lib/yahoo-finance.ts:21 | a sum between p*lo and p*hi, divided by p, lies in [lo, hi] |
| Indicators.Gains | src/lib/yahoo-finance.ts:31-38 | the accumulated gains are never negative |
| Indicators.Losses | src/lib/yahoo-finance.ts:31-38 | the accumulated losses are never negative |
| Indicators.RsiFromBounds | src/lib/yahoo-finance.ts:40-46 | the RSI lies in [0, 100] |
| Indicators.RsiOfOnlyLosses | src/lib/yahoo-finance.ts:40-46 | with no gains and some losses the RSI is 0 |
| Indicators.RsiFrom | src/lib/yahoo-finance.ts:40-46 | the RSI formula from the window's total gains and losses, 100 without losses (definition; bounded by `RsiFromBounds`) |
| Indicators.Rsi | src/lib/yahoo-finance.ts:25-47 | what `calculateRSI` returns, as the specification of `CalculateRsi` (definition) |
| Indicators.RsiZeroExactly | src/lib/yahoo-finance.ts:40-46 | the formula gives 0 exactly when there were losses and no gain |
| Indicators.GainsZeroIff | src/lib/yahoo-finance.ts:31-38 | the window's gains are 0 exactly when no close in it rose |
| Indicators.LossesPositiveIff | src/lib/yahoo-finance.ts:31-38 | the window's losses are positive exactly when some close in it fell |
| Indicators.CalculateRsi | src/lib/yahoo-finance.ts:25-47 | null exactly when there are fewer than period+1 closes; otherwise a value in [0, 100] from the gains and losses of the last period differences; 100 when there are no losses |
| Indicators.RuleHolds | src/lib/yahoo-finance.ts:104-121 | the condition of each of the six rules, in the source's order (definition) |
| Indicators.RuleAction | src/lib/yahoo-finance.ts:104-121 | Buy for rules 1, 3 and 5 and Venda for rules 2, 4 and 6, counting from 1 (definition) |
| Indicators.RuleReason | src/lib/yahoo-finance.ts:102-121 | the reason text of each rule, and the lateral text otherwise (definition) |
| Indicators.FirstRule | src/lib/yahoo-finance.ts:104-122 | the result is the first of the six rules whose condition holds, or none |
| Indicators.Signal | src/lib/yahoo-finance.ts:101-122 | the action and reason of the first matching rule, else Hold with the lateral reason (definition; `SignalUnrolled` and `SignalSidesOfNeutral` state its meaning) |
| Indicators.SignalSidesOfNeutral | src/lib/yahoo-finance.ts:101-122 | a Buy signal implies RSI < 50 and a Venda signal implies RSI > 50; an RSI of exactly 50 gives Hold with the lateral-market reason |
| Indicators.FirstRuleUnrolled | src/lib/yahoo-finance.ts:104-122 | the first matching rule is found by testing the six rules in order |
| Indicators.SignalUnrolled | src/lib/yahoo-finance.ts:101-122 | the signal of a reading is the action and reason of the first of the six tests that holds, else Hold with the lateral reason |
| Indicators.ClassifySignal | src/lib/yahoo-finance.ts:101-122 | the if/else chain yields the action and reason of the first matching rule, or Hold |
| Indicators.Closes | src/lib/yahoo-finance.ts:62-64 | dropping entries without a numeric close never lengthens the history; the four lemmas below give its contents |
| Indicators.ClosesFromHistory | src/lib/yahoo-finance.ts:64 | every close is the value of an entry of the history |
| Indicators.ClosesCoverHistory | src/lib/yahoo-finance.ts:64 | every present value of the history is a close |
| Indicators.ClosesCount | src/lib/yahoo-finance.ts:64 | there is one close per present entry: the history's length minus its gaps |
| Indicators.LastClose | src/lib/yahoo-finance.ts:64-66 | the last close is the value of the last present entry, the fallback price |
| Indicators.ResolvedPrice | src/lib/yahoo-finance.ts:66 | the market price, else the last close, else 0 (definition) |
| Indicators.RsiOrNeutral | src/lib/yahoo-finance.ts:73 | the RSI of the closes, or 50 when there are fewer than 15 or it computes to 0 (definition; see `ComputedRsiZero`) |
| Indicators.Sma50OrPrice | src/lib/yahoo-finance.ts:74 | the 50-close average, or the price when history is short or the average is 0 (definition; see `AverageFallbacks`) |
| Indicators.Sma200OrSma50 | src/lib/yahoo-finance.ts:75 | the 200-close average, or SMA50 when history is short or the average is 0 (definition; see `AverageFallbacks`) |
| Indicators.AverageFallbacks | src/lib/yahoo-finance.ts:74-75 | an average that computes to 0 falls back to the price or SMA50, like a short history; a non-zero one is used |
| Indicators.AnalysisOf | src/lib/yahoo-finance.ts:61-135 | the analysis assembled from the resolved price, the indicator fallbacks and the signal (definition; the specification of `AnalyzeStock`) |
| Indicators.ShortHistoryFallbacks | src/lib/yahoo-finance.ts:73-75 | fewer than 15 closes gives RSI 50, fewer than 50 gives SMA50 = price, fewer than 200 gives SMA200 = SMA50; the RSI is always in [0, 100] |
| Indicators.ShortHistoryHolds | src/lib/yahoo-finance.ts:73-122 | a stock with fewer than 15 closes is always Hold |
| Indicators.ComputedRsiZero | src/lib/yahoo-finance.ts:73 | the computed RSI is 0 exactly when none of the last 14 moves rose and at least one fell, and the stored RSI is then the neutral 50 |
| Indicators.AnalyzeStock | src/lib/yahoo-finance.ts:49-140 | null exactly when the response or its results are missing or empty, or the resolved price is 0; otherwise the analysis built from the fallbacks and the rule chain |
| Selection.FindIndexFrom | src/lib/yahoo-finance.ts:179 | -1 when no entry has the symbol; otherwise the position of the first entry that has it |
| Selection.KeepFirstUpTo | src/lib/yahoo-finance.ts:179 | every kept entry is the first entry with its symbol, and the kept entries stay in input order |
| Selection.KeepFirst | src/lib/yahoo-finance.ts:179 | the findIndex filter over the whole list (definition; `KeepFirstDistinct` and `KeepFirstCovers` state its meaning) |
| Selection.KeepFirstDistinct | src/lib/yahoo-finance.ts:179 | after the findIndex filter no symbol appears twice |
| Selection.KeepFirstCovers | src/lib/yahoo-finance.ts:179 | every symbol of the input survives the filter |
| Selection.Insert | src/lib/yahoo-finance.ts:180 | inserting into a sorted list keeps it sorted and adds exactly that element |
| Selection.ConsSorted | src/lib/yahoo-finance.ts:180 | an entry ranked no later than the head of a sorted list keeps it sorted in front |
| Selection.Rank | src/lib/yahoo-finance.ts:180 | the key the comparators order ascending: the RSI, or the negated change (definition) |
| Selection.SortBy | src/lib/yahoo-finance.ts:180 | the result is sorted by the comparator's key and is a permutation of the input |
| Selection.InsertKeepsDistinct | src/lib/yahoo-finance.ts:180 | inserting a new symbol keeps the symbols distinct |
| Selection.SortKeepsDistinct | src/lib/yahoo-finance.ts:180 | sorting keeps the symbols distinct |
| Selection.InsertOfRank | src/lib/yahoo-finance.ts:180 | an inserted entry goes before every entry of its own key in the list it is inserted into; the other entries of each key keep their order |
| Selection.SortStable | src/lib/yahoo-finance.ts:180 | the sort is stable: the entries of any one key keep their input order |
| Selection.Take | src/lib/yahoo-finance.ts:181 | `slice(0, n)` is a prefix of at most n elements, and of exactly n when the input is long enough |
| Selection.TakeKeepsOrderAndDistinct | src/lib/yahoo-finance.ts:178-181 | a prefix of a sorted list of distinct symbols is sorted and distinct |
| Selection.SuggestionReason | src/lib/yahoo-finance.ts:160-174 | technical when RSI < 32 and Buy; otherwise dividend when DY >= 8; otherwise recovery when RSI < 45 and price > SMA50; otherwise excluded |
| Selection.Categorized | src/lib/yahoo-finance.ts:157-175 | no more results than analyses, each carrying one of the three suggestion reasons |
| Selection.CategorizedCount | src/lib/yahoo-finance.ts:157-175 | exactly one result per non-null analysis that meets a rule |
| Selection.CategorizedComplete | src/lib/yahoo-finance.ts:157-175 | every non-null analysis that meets a rule is kept, with the reason of the first rule it meets |
| Selection.CategorizedSound | src/lib/yahoo-finance.ts:157-175 | every kept entry is a non-null analysis that meets a rule, with that rule's reason |
| Selection.Categorize | src/lib/yahoo-finance.ts:157-175 | the forEach loop produces the categorised list |
| Selection.TopSuggestionsOf | src/lib/yahoo-finance.ts:178-181 | categorise, keep the first per symbol, sort by RSI, take four (definition; the two lemmas below state its meaning) |
| Selection.TopSuggestionsProperties | src/lib/yahoo-finance.ts:157-181 | top suggestions number at most four, have distinct symbols, run lowest RSI first, and each is an analysis that meets a rule, carrying that rule's reason |
| Selection.PermutedTakeIsLowest | src/lib/yahoo-finance.ts:180-181 | the first n of a sorted permutation of a list number min(n, length), come from the list, and rank no later than any entry they leave out |
| Selection.SortedTakeIsLowest | src/lib/yahoo-finance.ts:180-181 | the first n of the sorted list number min(n, length), come from the list, and rank no later than any entry they leave out |
| Selection.TopSuggestionsAreLowest | src/lib/yahoo-finance.ts:178-181 | the suggestions number min(4, distinct categorised symbols), and none of the de-duplicated entries left out has a lower RSI |
| Selection.ShortListKeepsSymbols | src/lib/yahoo-finance.ts:179-181 | when at most n symbols remain after de-duplication, every input symbol survives the sort and the slice |
| Selection.FewSuggestionsAllKept | src/lib/yahoo-finance.ts:157-181 | when at most four distinct symbols are categorised, every analysis that meets a rule has its symbol among the suggestions |
| Selection.GetTopSuggestions | src/lib/yahoo-finance.ts:142-182 | categorise, dedupe, sort by RSI and take four; at most four, distinct and sorted |
| Selection.IsTrending | src/lib/yahoo-finance.ts:192 | change > 0, RSI in [50, 70] and price > SMA50 (definition) |
| Selection.Qualifying | src/lib/yahoo-finance.ts:190-195 | the qualifying list holds only trending analyses: change > 0, RSI in [50, 70], price > SMA50 |
| Selection.QualifyingExactly | src/lib/yahoo-finance.ts:190-195 | every non-null trending analysis is collected, and every collected entry is one of the analyses |
| Selection.NotChosen | src/lib/yahoo-finance.ts:199-201 | no filler candidate shares a symbol with a chosen stock |
| Selection.NotChosenExactly | src/lib/yahoo-finance.ts:199-200 | every non-null analysis whose symbol is not chosen is a candidate, and every candidate is one of the analyses |
| Selection.Collect | src/lib/yahoo-finance.ts:190-207 | the qualifiers, topped up with the leading sorted candidates while fewer than six are collected (definition) |
| Selection.TrendingFrom | src/lib/yahoo-finance.ts:209 | the first six collected, sorted by change descending (definition; the lemmas below state its meaning) |
| Selection.TrendingOf | src/lib/yahoo-finance.ts:184-210 | the trending list of the analyses: `TrendingFrom` of the qualifiers and the candidates not sharing their symbols (definition) |
| Selection.TrendingShape | src/lib/yahoo-finance.ts:209 | at most six stocks, ordered by change descending |
| Selection.TrendingManyQualifiers | src/lib/yahoo-finance.ts:198-209 | with six or more qualifiers the result is exactly the first six qualifiers in candidate order, reordered by change; no filler enters |
| Selection.TrendingKeepsQualifiers | src/lib/yahoo-finance.ts:197-209 | with fewer than six qualifiers every qualifier is in the result |
| Selection.TrendingFewLength | src/lib/yahoo-finance.ts:197-209 | with fewer than six qualifiers the result has six entries, or all qualifiers and other analyses when there are fewer |
| Selection.TrendingFewMembers | src/lib/yahoo-finance.ts:197-209 | every entry is a qualifier or one of the other analyses |
| Selection.CollectFew | src/lib/yahoo-finance.ts:197-209 | with fewer than six qualifiers the collected list is the qualifiers plus the leading sorted candidates, and it survives the slice whole |
| Selection.PrefixDominates | src/lib/yahoo-finance.ts:201-206 | in a list sorted by descending change, an entry of a prefix moved at least as much as any entry outside it |
| Selection.FillerDominates | src/lib/yahoo-finance.ts:201-209 | a filler of the collected list moved at least as much as any candidate left out |
| Selection.TrendingFillersAreTopMovers | src/lib/yahoo-finance.ts:197-209 | with fewer than six qualifiers, each filler moved at least as much as every other analysis left out of the list |
| Selection.CollectQualifying | src/lib/yahoo-finance.ts:190-195 | the forEach loop collects exactly the trending analyses, in candidate order |
| Selection.FillUp | src/lib/yahoo-finance.ts:198-207 | the fallback loop appends remaining entries in order until six are collected or none is left |
| Selection.GetTrendingStocks | src/lib/yahoo-finance.ts:184-210 | the result is `TrendingOf` of the analyses: at most six, change descending |
| Alerts.BuildSuggestionsText | src/services/alert.service.ts:14-22 | the no-opportunity text when there are no suggestions, else one bullet per suggestion in order |
| Alerts.Bullet | src/services/alert.service.ts:18 | the bullet line of one suggestion: symbol, reason and rendered price (definition) |
| Alerts.Bullets | src/services/alert.service.ts:17-19 | the bullets of all suggestions in order (definition; the loop invariant of `BuildSuggestionsText`) |
| Alerts.SuggestionsText | src/services/alert.service.ts:14-22 | the bullets, or the no-opportunity sentence when there are no suggestions (definition) |
| Alerts.ContentForHash | src/services/alert.service.ts:32 | the fingerprinted content: alerts text then suggestions text, without template or stamp (definition) |
| Alerts.AlertsText | src/services/alert.service.ts:13 | the alerts joined by newlines (definition) |
| Alerts.Template | src/services/alert.service.ts:11 | the custom message when set, else the default template |
| Alerts.Compose | src/services/alert.service.ts:24-29 | the message always ends with the analysis-time stamp |
| Alerts.ComposeWithoutTokens | src/services/alert.service.ts:24-29 | a template without placeholders is sent verbatim, followed by the stamp |
| Alerts.SecondAlertsTokenKept | src/services/alert.service.ts:24-26 | a second `{{alerts}}` placeholder is left in the message |
| Alerts.Configured | src/services/alert.service.ts:7 | webhook URL and phone number present and automatic alerts on (definition) |
| Alerts.IsFirstTime | src/services/alert.service.ts:46 | no previous alert time (definition) |
| Alerts.IsChanged | src/services/alert.service.ts:47 | the stored digest differs from the current one (definition) |
| Alerts.IsNewHour | src/services/alert.service.ts:38-48 | no previous time, or the current hour bucket is past the last one (definition) |
| Alerts.InWorkingHours | src/services/alert.service.ts:50-55 | the São Paulo reading lies in the user's window, with the 10:00 and 19:00 defaults (definition) |
| Alerts.Decide | src/services/alert.service.ts:46-58 | nothing when unconfigured or outside working hours; a send exactly when it is the first time, the hash changed or a new hour began; otherwise the quiet row |
| Alerts.After | src/services/alert.service.ts:62-65 | hash and time are persisted only after a successful delivery; otherwise they are unchanged |
| Alerts.LogFor | src/services/alert.service.ts:67-99 | no row when nothing is attempted; one success row on delivery, the warning row on failure, the info row when quiet |
| Alerts.SuccessKindOf | src/services/alert.service.ts:67-74 | first-time, then new hour with unchanged digest, then changed digest, else the generic text (definition) |
| Alerts.SuccessText | src/services/alert.service.ts:67-74 | the success log text of each kind (definition) |
| Alerts.SuccessKindOfDelivery | src/services/alert.service.ts:67-74 | a delivery is logged as the first bulletin exactly on the first time, and as the hourly bulletin exactly on a new hour with unchanged digest |
| Alerts.RepeatInSameHourIsQuiet | src/services/alert.service.ts:46-58 | after a delivery, the same digest within the same clock hour is not sent again |
| Alerts.FailedDeliveryIsRetried | src/services/alert.service.ts:82-90 | a failed delivery persists nothing, so a run no earlier, inside working hours and with the same digest, sends again |
| Alerts.ChangedContentIsSent | src/services/alert.service.ts:47-60 | a digest that differs from the stored one is always sent inside working hours |
| Alerts.AlertEngine.constructor | src/services/alert.service.ts:6 | the engine starts from the given settings and persisted state, with empty logs |
| Alerts.AlertEngine.ProcessAlerts | src/services/alert.service.ts:6-104 | the outcome is the decision; the new persisted state is `After`; logs grow by `LogFor`; the composed message goes to the user's webhook exactly when a send is attempted |
| Alerts.AlertEngine.PrepareMessage | src/services/alert.service.ts:11-33 | the final message is the composed template and the hash covers the alerts and suggestions text only |
| Alerts.AlertEngine.DecideAndSend | src/services/alert.service.ts:35-103 | for a configured user: the decision, state update, log rows and delivery above |
| Scan.CeilDiv | src/app/api/scan/route.ts:65 | `Math.ceil(n/d)`: the least r with n <= d*r |
| Scan.WaitSeconds | src/app/api/scan/route.ts:65 | seconds until the lock expires, rounded up (definition; bounded by `WaitSecondsRange`) |
| Scan.MasterSwitchOffIn | src/app/api/scan/route.ts:32 | an admin row exists and its master switch is off (definition) |
| Scan.WorkStart | src/app/api/scan/route.ts:50 | the admin's start, or 10:00 when absent or empty (definition) |
| Scan.WorkEnd | src/app/api/scan/route.ts:51 | the admin's end, or 19:00 when absent or empty (definition) |
| Scan.LockHeld | src/app/api/scan/route.ts:64 | a non-zero lock time less than 90 s ago; a stored 0 never holds (definition) |
| Scan.DbLogRecent | src/app/api/scan/route.ts:82-84 | a scan log row less than 90 s old (definition) |
| Scan.WaitSecondsRange | src/app/api/scan/route.ts:64-65 | while the lock holds, the announced wait is between 1 and 90 seconds |
| Scan.Gate | src/app/api/scan/route.ts:32-92 | master switch, then working hours, then the in-memory lock, then the last scan log; the scan proceeds exactly when none of them refuses |
| Scan.LockRefusesFollowUp | src/app/api/scan/route.ts:62-95 | after a scan passed at t, a later call that starts within 90 s and passes the switch and hours check is refused by the lock with a wait of 1..90 s (calls that run one after the other) |
| Scan.NextCheck | src/app/api/scan/route.ts:169 | the configured interval in minutes times 60 000 ms; 15 minutes with no admin settings or an unset interval |
| Scan.CountOf | src/app/api/scan/route.ts:110-126 | a count never exceeds the number of users |
| Scan.CountsBounded | src/app/api/scan/route.ts:110-126 | each user adds to at most one counter |
| Scan.StatsOf | src/app/api/scan/route.ts:103-126 | sent + skipped + errors never exceed the users checked, which is the number of users |
| Scan.Tally | src/app/api/scan/route.ts:103-126 | the loop produces the stats: failure statuses and exceptions both count as errors |
| Scan.ScanLog | src/app/api/scan/route.ts:129-135 | the scan log row is a warning exactly when there were errors, info otherwise |
| Scan.ReportFor | src/app/api/scan/route.ts:137-166 | the admin report is attempted exactly when something was sent and the admin has both a webhook URL and a phone number |
| Scan.Scanner.constructor | src/app/api/scan/route.ts:11 | the lock starts empty |
| Scan.Scanner.Guards | src/app/api/scan/route.ts:32-92 | the early-return chain refuses with exactly the reason `Gate` gives for the current lock |
| Scan.Scanner.Trigger | src/app/api/scan/route.ts:14-186 | a refused call returns the guard's reason with a 90 s next check and changes nothing; a passing call takes the lock, logs the tally, records the admin report when due, and returns the stats with the configured interval |

## Left out

- Authentication and the user lookup of the scan route (src/app/api/scan/route.ts:16-25) and its `erro_interno` catch-all are not modelled. The route starts at the admin settings.
- The human-readable `message` texts of the scan responses are not modelled. Only the reason and the computed numbers are kept.
- Scan.ReportFor: records the stats and the admin's contact, but not the rendered report text (São Paulo time, caller e-mail). A failing report is swallowed and leaves no trace, as in the route.
- Scan.Scanner.Trigger: the time of the latest scan log row and each user's dashboard outcome (`runDashboardAnalysis`) are inputs. The dashboard service is not part of this model.
- Scan.Scanner.Trigger: runs the guards and the lock write as one atomic step. In the route the lock test (src/app/api/scan/route.ts:64) and the lock write (line 95) are separated by the awaited scan-log query (line 75), and the scan's own log row is only written at line 129. Two requests that arrive within one database round trip can therefore both pass the lock and both scan. The model does not capture that interleaving, and `Scan.LockRefusesFollowUp` holds only for requests that run one after the other.
- Clock readings are inputs: `Date.now()`, `toLocaleTimeString` in São Paulo, the server hour and the time stamp. The hour bucket is epoch milliseconds divided by 3600000. This matches `setMinutes(0,0,0)` in any time zone whose offset is a whole number of hours.
- The MD5 digest and the `toFixed(2)` money rendering are function constants of `AlertEngine`, not implementations. The digest is unconstrained, so the decision lemmas (`Alerts.RepeatInSameHourIsQuiet`, `Alerts.ChangedContentIsSent`) speak of digests, not of contents; two contents with the same digest count as unchanged.
- The webhook send and the settings update (src/services/alert.service.ts:60-65) become one input `sendOk`. A failure of either leads to the warning row and nothing persisted. The message counts as handed to the webhook in both cases.
- Alerts.AlertEngine.ProcessAlerts: the success-log insert (src/services/alert.service.ts:76-81) is assumed not to throw. If it did, after the update succeeded, the new hash and time would be persisted and the warning row written as well; the model cannot produce that outcome.
- Common.LexLess: compares Unicode scalar values, whereas JavaScript `<` compares UTF-16 code units. The two orders differ only for characters above U+FFFF, so only a custom `workStart` or `workEnd` that is not an "HH:MM" reading could tell them apart.
- `String.prototype.replace` special `$` patterns in the replacement text are not modelled. The replacement is inserted literally.
- `toFixed(2)` rounding of the analysis fields and all floating-point effects are not modelled. Prices are exact reals.
- HTTP fetching (axios, BRAPI) is not modelled: the parsed response is an input. The dividend-yield computation over `cashDividends` (src/lib/yahoo-finance.ts:77-99) is also left out, and the yield is an input field.
- The random shuffle of the 24 candidates and the fixed candidate lists are left out. The analyses of the chosen candidates are inputs, in candidate order.
- Indicators.Sma: requires a positive period. The source only calls it with 50 and 200.
- Indicators.CalculateRsi: requires a positive period. The source only calls it with the default 14.
