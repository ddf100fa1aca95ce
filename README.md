# Churn prediction dashboard — verified model of its core logic

The dashboard is a React front end and a Flask back end. A user enters a
customer's contract and billing details and gets a churn prediction: a
probability, a Churn / No Churn label and six signed feature attributions
(mock SHAP values). Predictions are stored per user. They can be browsed,
filtered, paged, searched and exported as CSV, and they are summarised in
dashboard statistics and charts. Users can also set e-mail and SMS alerts for
high-risk predictions.

This project models the deterministic logic inside that plumbing:

- the client-side mock scorer and the back end's attribution scorer;
- the back end's request logic, over an in-memory store in place of MongoDB:
  - the response envelope;
  - required-field checks and column renaming;
  - the 0.5 label rule;
  - the history query;
  - dashboard aggregation;
  - the admin-gated clear;
- the chart aggregations: the SHAP bars, the risk and gauge bands, the
  probability histogram, and churn rate by date and by contract;
- the history table: filter state, search, pager and CSV;
- the notification-settings form and the alert dispatcher;
- the HTTP client's URL, header, error and query-string rules;
- the session hook: token, user and loading flag;
- the select-id slug.

Each source file becomes one module:

- pure code becomes functions with lemmas;
- code that updates state step by step becomes classes and methods proved
  against specification functions:
  - `Backend.PredictionService`, `NotificationSettings.SettingsForm`,
    `NotificationService.Service` and `Auth.Session`;
  - the loops in `Backend.PredictionService.GetHistory`,
    `Backend.FirstMissingField`, `Histogram.Bins`, `Grouping.GroupCount`
    and `Api.HistoryParams`.

Shared pieces have modules of their own:

- `Common`: options, JavaScript whitespace, decimal text, join and split;
- `StableSort`: the stable descending sort that JavaScript's `sort` and
  Python's `sorted(..., reverse=True)` perform;
- `Grouping`: the first-appearance grouping both charts use;
- `Domain`: the records declared in `project/src/types/index.ts`.

Probabilities and charges are `real`, and counts, pages and limits are
`int`/`nat`. The arithmetic is exact: statements about boundaries such as
`0.3 + Σ == 0.5` hold for real numbers, not for IEEE doubles.

Where the written specification of the system and the code disagree, the
model follows the code:

- The mock scorer compares the payment method with the literal
  `'Electronic Check'` (capital C), so the typed form value
  `'Electronic check'` scores −0.08.
- The monthly-charges and tenure attributions have an impact that does not
  follow their sign.
- Neither scorer rejects negative or out-of-domain inputs.
- The back-end scorer uses Internet Service instead of Tech Support.

## Model

| member | source | states |
|---|---|---|
| StableSort.SortPermutation | project/src/services/mockData.ts:51-52 | the sort returns a permutation of its input |
| StableSort.SortIsSorted | project/src/services/mockData.ts:51-52 | the sort's output is in non-increasing key order |
| StableSort.SortStable | project/src/services/mockData.ts:51-52 | elements with equal keys keep their relative order |
| StableSort.SortSum | project/src/services/mockData.ts:63 | sorting does not change the sum that the probability is built from |
| StableSort.SortSorted | project/src/services/mockData.ts:51-52 | a list already in order is returned unchanged |
| MockData.Take | project/src/services/mockData.ts:53 | `slice(0, n)` keeps the first min(n, length) elements unchanged |
| MockData.MockShapIsPermutation | project/src/services/mockData.ts:17-54 | exactly six attributions, a permutation of the six declared features; the slice drops nothing |
| MockData.MockShapRanked | project/src/services/mockData.ts:51-52 | non-increasing absolute value; equal magnitudes keep declaration order |
| MockData.MockCategoricalImpact | project/src/services/mockData.ts:29-48 | for the four categorical features, impact is positive iff the positive constant was chosen, and each constant is chosen iff its condition holds |
| MockData.MockNumericImpact | project/src/services/mockData.ts:19-28 | charges and tenure values are the linear formulas; impact is positive iff charges > 70, or tenure < 12, whatever the sign |
| MockData.MockNumericSignMismatch | project/src/services/mockData.ts:19-28 | charges 60 and tenure 30 give positive values with negative impact |
| MockData.MockPaymentTypedValue | project/src/services/mockData.ts:36 | the typed value 'Electronic check' gets −0.08 and a negative impact |
| MockData.MockProbabilityClamped | project/src/services/mockData.ts:59-65 | probability = max(0.05, min(0.95, 0.3 + sum of the six values)), within [0.05, 0.95] |
| MockData.MockPredictionLabel | project/src/services/mockData.ts:71-72 | label is Churn iff the unrounded probability > 0.5; the stored probability is the rounded one |
| MockData.MockLabelBeforeRounding | project/src/services/mockData.ts:71-72 | a customer whose raw probability is just above 0.5 is labelled Churn while its rounded probability is 0.5 |
| MockData.MockPredictionDeterministic | project/src/services/mockData.ts:57-75 | label, probability and attributions depend only on the customer; only id and timestamp use clock and randomness, and the id starts with "pred_" |
| Backend.FormatResponse | project/backend/app.py:98-106 | `success` always present; `data` iff given; `message` and `error` iff truthy |
| Backend.TopSixOfSix | project/backend/app.py:119 | on six features, sorting by magnitude and taking six is a sorted, stable permutation |
| Backend.CalculateShapValuesRanked | project/backend/app.py:108-119 | six attributions including Internet Service, sorted by magnitude, a stable permutation of the declared list |
| Backend.CalculateShapValuesDefaults | project/backend/app.py:111-112 | missing charges default to 50 (value 0) and missing tenure to 12 (value 0.304) |
| Backend.CalculateShapValuesTypeError | project/backend/app.py:111 | a text `monthlyCharges` makes the arithmetic fail, the route's error path |
| Backend.FirstMissingField | project/backend/app.py:203-208 | none missing iff all ten required fields are present; otherwise the first missing one in list order |
| Backend.RenameColumns | project/backend/app.py:210-224 | every mapped input key appears under its column name with its value, and every output column comes from a mapped input key |
| Backend.ColumnMappingInjective | project/backend/app.py:211-222 | no two input keys map to the same column, so renaming loses nothing |
| Backend.PredictionLabel | project/backend/app.py:245 | "Churn" iff probability > 0.5, otherwise "No Churn" |
| Backend.PredictionLabelBoundary | project/backend/app.py:245 | 0.5 itself is "No Churn" |
| Backend.Matching | project/backend/app.py:293-295 | a record is kept iff it is the caller's and passes the optional label filter |
| Backend.SortField | project/backend/app.py:299 | the sort field is whitelisted, and an unknown one falls back to timestamp |
| Backend.PageOf | project/backend/app.py:305-308 | skip then limit: the page is the contiguous slice after the skip, at most `limit` long (0 means unlimited) |
| Backend.Count | project/backend/app.py:358 | a count never exceeds the number of records |
| Backend.SumProbabilityBounds | project/backend/app.py:360 | the probability sum lies between 0 and the record count |
| Backend.DashboardBounds | project/backend/app.py:344-373 | no records: zeros and the fixed metrics 84/69/72/71/90; otherwise churn rate in [0, 100], average in [0, 1], high-risk ≤ total, and the fixed metrics 84/69/72.2/70.5/90 |
| Backend.PredictionService.constructor | project/backend/app.py:53-95 | the store starts empty with the given connection, model and user state |
| Backend.PredictionService.Predict | project/backend/app.py:180-273 | 500 without models, 400 naming the first missing field, 500 on a failed scorer; otherwise the label rule, and the record is appended iff the db is connected |
| Backend.PredictionService.GetHistory | project/backend/app.py:276-330 | 500 without db or with bad paging arguments; otherwise the formatted page of matching records in sort order, and `total` counts every match |
| Backend.PredictionService.GetDashboardStats | project/backend/app.py:332-379 | 500 without db; otherwise the aggregation of the caller's records |
| Backend.PredictionService.ClearHistory | project/backend/app.py:381-404 | 500 without db or on a malformed id; 403 and store unchanged unless the user is an admin; otherwise every user's records go and the prior count is reported |
| Backend.HistoryOwnerAndFilter | project/backend/app.py:293-295 | every returned record is the caller's and has the filtered label when a filter other than 'All' is given |
| Backend.HistoryOrdered | project/backend/app.py:298-306 | the page is ordered by the sort field, descending iff sortOrder is 'desc' |
| Backend.HistoryPaging | project/backend/app.py:301-308 | the page skips (page−1)·limit matching records, holds at most `limit`, and `total` ignores paging |
| ShapChart.ToBars | project/src/components/prediction/ShapChart.tsx:22-28 | one bar per value, in order, with the magnitude, the original value, the feature and the impact |
| ShapChart.EmptyRendersMessage | project/src/components/prediction/ShapChart.tsx:18-20 | no chart iff the list is missing or empty |
| ShapChart.BarsFaithful | project/src/components/prediction/ShapChart.tsx:22-29 | same length, a permutation of the mapped bars, each value = \|original\| ≥ 0 |
| ShapChart.BarsSorted | project/src/components/prediction/ShapChart.tsx:29 | bars in non-increasing value order |
| ShapChart.ToBarsSorted | project/src/components/prediction/ShapChart.tsx:22-29 | mapping a magnitude-sorted list gives value-sorted bars |
| ShapChart.ScorerOrderKept | project/src/components/prediction/ShapChart.tsx:29 | re-sorting the scorer's output keeps its order |
| ShapChart.BarColor | project/src/components/prediction/ShapChart.tsx:51 | red iff impact is positive |
| ShapChart.ColorIgnoresSign | project/src/components/prediction/ShapChart.tsx:51 | a negative value with positive impact is still red |
| Risk.IsChurn | project/src/components/prediction/PredictionResult.tsx:15 | churn iff the label is "Churn" |
| Risk.IsChurnIgnoresProbability | project/src/components/prediction/PredictionResult.tsx:15 | two predictions with the same label agree, whatever their probabilities |
| Risk.RiskBands | project/src/components/prediction/PredictionResult.tsx:16-17 | High iff p > 0.7, Medium iff 0.4 < p ≤ 0.7, Low iff p ≤ 0.4 |
| Risk.RiskMonotone | project/src/components/prediction/PredictionResult.tsx:16-17 | a higher probability never gives a lower level |
| Risk.ColorMatchesRisk | project/src/components/prediction/ProbabilityGauge.tsx:14-18 | red/amber/green bands on the same thresholds, matching the risk level |
| Risk.Percentage | project/src/components/prediction/ProbabilityGauge.tsx:10 | percentage / 100 is the probability, in [0, 100] for p in [0, 1] |
| Risk.DashOffsetRange | project/src/components/prediction/ProbabilityGauge.tsx:11-12 | offset C·(1−p): C at 0, 0 at 1, non-increasing, within [0, C] |
| Histogram.BinLabelEnds | project/src/components/charts/ProbabilityHistogram.tsx:13-16 | the first bin is "0-10" and the last "90-100" |
| Histogram.BinIndex | project/src/components/charts/ProbabilityHistogram.tsx:19 | p in [0, 1) goes to bin floor(10p); p ≥ 0.9, including 1, to bin 9; a negative p has no bin |
| Histogram.Bins | project/src/components/charts/ProbabilityHistogram.tsx:13-21 | exactly ten labelled bins, each counting the predictions whose index it is |
| Histogram.CountsSumToLength | project/src/components/charts/ProbabilityHistogram.tsx:18-21 | each prediction raises exactly one bin: counts sum to the number of predictions |
| Histogram.CountsIgnoreOrder | project/src/components/charts/ProbabilityHistogram.tsx:18-21 | the counts depend only on the multiset of probabilities |
| Grouping.GroupCount | project/src/components/charts/ChurnTrendChart.tsx:26-44 | keys in first-appearance order, one per distinct key; each entry holds that key's churn count and total |
| Grouping.KeysExact | project/src/components/charts/ChurnTrendChart.tsx:36-38 | the keys are exactly the distinct present keys, without repetition |
| Grouping.TotalPositive | project/src/components/charts/ChurnTrendChart.tsx:36-40 | every listed key has total ≥ 1 |
| Grouping.ChurnsAtMostTotal | project/src/components/charts/ChurnTrendChart.tsx:40-43 | churns ≤ total |
| Grouping.RateBounds | project/src/components/charts/ChurnTrendChart.tsx:50 | churns / total lies in [0, 1] |
| Grouping.TotalsSumToValid | project/src/components/charts/ChurnTrendChart.tsx:40 | the totals over all keys sum to the number of keyed observations |
| TrendChart.Observe | project/src/components/charts/ChurnTrendChart.tsx:30-34 | one observation per record: its date key (none when unparsable) and whether it is a churn |
| TrendChart.ChurnTrend | project/src/components/charts/ChurnTrendChart.tsx:26-53 | one row per distinct valid date, first-appearance order; predictions = total ≥ 1, churnRate = churns/total in [0, 1] |
| TrendChart.TrendCoversValid | project/src/components/charts/ChurnTrendChart.tsx:40-43 | the rows' predictions add up to the number of records with a valid date |
| TrendChart.InvalidDateSkipped | project/src/components/charts/ChurnTrendChart.tsx:31-32 | a record with an unparsable date changes no row |
| ContractChart.ContractKey | project/src/components/charts/ChurnByContractBarChart.tsx:12 | an empty contract is grouped as 'Unknown' |
| ContractChart.ChurnByContract | project/src/components/charts/ChurnByContractBarChart.tsx:11-22 | one row per distinct contract; churnRate = 100·churns/total in [0, 100] |
| ContractChart.ContractTotals | project/src/components/charts/ChurnByContractBarChart.tsx:14-15 | totals over all contracts sum to the number of predictions |
| HistoryTable.HandleFilterChange | project/src/components/history/HistoryTable.tsx:48-54 | the named field is set, every other field is kept, and page ends as 1 |
| HistoryTable.NextAsWrittenStuck | project/src/components/history/HistoryTable.tsx:215-224 | as written, Next always yields page 1 (from page 3 it goes back) |
| HistoryTable.FilterChange | project/src/components/history/HistoryTable.tsx:48-54 | corrected handler: a page change keeps its page; any other change is the original |
| HistoryTable.PagerButtonsMove | project/src/components/history/HistoryTable.tsx:215-224 | corrected: Next moves to page + 1, Previous to max(1, page − 1), and Previous undoes Next |
| HistoryTable.SelectedPrediction | project/src/components/history/HistoryTable.tsx:111-112 | 'All' is stored as no filter; any other value as itself |
| HistoryTable.PredictionSelectRoundTrip | project/src/components/history/HistoryTable.tsx:111-112 | the select shows the value it stored |
| HistoryTable.Search | project/src/components/history/HistoryTable.tsx:159-163 | a row is kept iff the term is empty or, lower-cased, occurs in the lower-cased label or contract |
| HistoryTable.SearchEmptyKeepsAll | project/src/components/history/HistoryTable.tsx:160 | the empty term keeps every row in order |
| HistoryTable.SearchIgnoresCase | project/src/components/history/HistoryTable.tsx:161-162 | searching for the lower-cased term gives the same rows |
| HistoryTable.PagerMatchesBackend | project/src/components/history/HistoryTable.tsx:206-224 | the range shown is the size of the back end's page, Next is enabled iff a next page is non-empty, Previous is disabled iff on page 1, and the pager shows iff total > limit |
| HistoryTable.Row | project/src/components/history/HistoryTable.tsx:59-66 | six cells per prediction, as many as the header |
| HistoryTable.Table | project/src/components/history/HistoryTable.tsx:57-67 | header first, then one row per prediction in input order |
| HistoryTable.Lines | project/src/components/history/HistoryTable.tsx:69 | each row joined with ',' |
| HistoryTable.CsvRoundTrip | project/src/components/history/HistoryTable.tsx:57-69 | with cells free of ',' and newline, splitting the CSV on newline then ',' gives back the table |
| NotificationSettings.EmailValidMatchesPattern | project/src/components/notifications/NotificationSettings.tsx:85-87 | the validator accepts exactly "" and the strings `^[^\s@]+@[^\s@]+\.[^\s@]+$` matches |
| NotificationSettings.PhoneValidMatchesPattern | project/src/components/notifications/NotificationSettings.tsx:88-90 | the validator accepts exactly "" and the strings `^\+?[0-9\s\-()]{7,}$` matches |
| NotificationSettings.SubmitDisabled | project/src/components/notifications/NotificationSettings.tsx:219 | enabled iff not loading and both validators accept |
| NotificationSettings.SubmitBlockedByDisabledChannel | project/src/components/notifications/NotificationSettings.tsx:28-35 | an invalid phone blocks saving with SMS off; the defaults can be saved |
| NotificationSettings.ColorOf | project/src/components/notifications/NotificationSettings.tsx:206-212 | green iff the message starts with ✅, red iff it starts with ❌ and not ✅, otherwise yellow |
| NotificationSettings.OwnMessagesColored | project/src/components/notifications/NotificationSettings.tsx:53-78 | the form's own messages get green, red, red and yellow |
| NotificationSettings.SettingsForm.constructor | project/src/components/notifications/NotificationSettings.tsx:28-38 | defaults: email on, SMS off, threshold '0.7', frequency 'immediate', empty address and phone; not loading, no message |
| NotificationSettings.SettingsForm.SetThreshold | project/src/components/notifications/NotificationSettings.tsx:106-108 | replaces the threshold only |
| NotificationSettings.SettingsForm.SetFrequency | project/src/components/notifications/NotificationSettings.tsx:114-116 | replaces the frequency only |
| NotificationSettings.SettingsForm.SetEmailEnabled | project/src/components/notifications/NotificationSettings.tsx:128-133 | replaces the email flag only |
| NotificationSettings.SettingsForm.SetEmailAddress | project/src/components/notifications/NotificationSettings.tsx:150-155 | replaces the address only |
| NotificationSettings.SettingsForm.SetSmsEnabled | project/src/components/notifications/NotificationSettings.tsx:169-174 | replaces the SMS flag only |
| NotificationSettings.SettingsForm.SetPhoneNumber | project/src/components/notifications/NotificationSettings.tsx:191-196 | replaces the phone only |
| NotificationSettings.SettingsForm.Load | project/src/components/notifications/NotificationSettings.tsx:41-57 | saved settings replace the form only on success with data; a failed request leaves a yellow warning |
| NotificationSettings.SettingsForm.Submit | project/src/components/notifications/NotificationSettings.tsx:60-82 | loading ends off; the message is the green saved text, the server error or the red failure text, or the red error text |
| NotificationService.AlertPlan | project/backend/services/notification_service.py:81-115 | fires iff probability ≥ threshold (defaults 0 and 0.7); email iff it fires with flag and address, SMS likewise |
| NotificationService.AlertThresholdInclusive | project/backend/services/notification_service.py:83-87 | with defaults nothing fires; a probability equal to the threshold fires; below it no channel is used |
| NotificationService.PlainTemplateRoundTrip | project/backend/services/notification_service.py:119-120 | the template wraps the message in fixed tags, and the message can be read back |
| NotificationService.Service.constructor | project/backend/services/notification_service.py:11-28 | an SMS client exists iff both Twilio credentials are set and the client starts |
| NotificationService.Service.SendEmailAlert | project/backend/services/notification_service.py:30-34 | false without sending unless host, user and password are all set |
| NotificationService.Service.SendSmsAlert | project/backend/services/notification_service.py:61-79 | false without sending when there is no client |
| NotificationService.Service.SendChurnAlert | project/backend/services/notification_service.py:81-115 | exactly the plan's channels are tried, each once, through the guarded senders |
| Api.StripTrailingSlash | project/src/services/api.ts:15 | removes a single trailing '/' if there is one |
| Api.StripRemovesOneSlash | project/src/services/api.ts:15 | one slash goes: "u//" becomes "u/" |
| Api.BaseUrl | project/src/services/api.ts:14-18 | the stripped URL if non-empty, else the remote backend in development and "/api" otherwise |
| Api.DefaultHeaders | project/src/services/api.ts:27-30 | JSON content type always; a bearer Authorization iff a token is stored |
| Api.MergeHeaders | project/src/services/api.ts:34-37 | caller headers override defaults on the same key; others kept |
| Api.Config | project/src/services/api.ts:32-40 | method defaults to GET; merged headers; body passed; credentials included |
| Api.ErrorMessage | project/src/services/api.ts:52 | error, else message, else 'API request failed' |
| Api.Handle | project/src/services/api.ts:44-55 | the body is read only for a JSON content type; a non-OK reply throws its error message |
| Api.VerifyToken | project/src/services/api.ts:89-92 | the user iff success with data, otherwise a rejection |
| Api.VerifyUsesGivenToken | project/src/services/api.ts:80-87 | the verification request carries its own bearer token and GET |
| Api.PresentEntriesExact | project/src/services/api.ts:112-116 | an entry is in the query iff its value is neither undefined nor null |
| Api.HistoryParams | project/src/services/api.ts:111-116 | the query is the present entries, stringified, in entry order |
| Auth.WithoutToken | project/src/hooks/useAuth.tsx:45 | the token entry goes and every other stored entry stays |
| Auth.WithoutTokenIdempotent | project/src/hooks/useAuth.tsx:85-88 | removing the token twice is removing it once |
| Auth.Session.constructor | project/src/hooks/useAuth.tsx:33-34 | no user, loading |
| Auth.Session.Init | project/src/hooks/useAuth.tsx:36-53 | no token: state kept; verified: user set; rejected: token removed; loading ends false in every case |
| Auth.Session.Login | project/src/hooks/useAuth.tsx:55-68 | true iff success with data, then the token is stored and the user set; otherwise nothing changes |
| Auth.Session.Register | project/src/hooks/useAuth.tsx:70-83 | same rule as login for the registration reply |
| Auth.Session.Logout | project/src/hooks/useAuth.tsx:85-88 | from any state: token removed, user null |
| Select.SelectId | project/src/components/ui/Select.tsx:23 | a non-empty id wins; otherwise the label's slug; with neither, undefined |
| Select.SlugProperties | project/src/components/ui/Select.tsx:23 | the slug has no whitespace, and slugging it again changes nothing |
| Select.SlugExample | project/src/components/ui/Select.tsx:23 | a mixed run of whitespace becomes a single '-' and letters are lower-cased |

## Left out

- Flask setup, CORS, JWT and the auth routes, the MongoDB client, model loading and `predict_proba` are not part of this model. The model's class-1 probability is an input of `Backend.PredictionService.Predict`.
- The categorical encoding and scaling loop of `predict` calls an sklearn encoder whose code is not part of this model. It only feeds the probability, which is an input.
- Ids, timestamps and the random mock history use the clock and randomness. They are parameters (`newId`, `now`, clock and random text).
- `Backend.PredictionService.Predict`: one `now` stamps both the returned record and the stored one. The source reads the clock twice: it returns an isoformat string and stores a separate datetime.
- Floating point is not modelled. `Math.round(p*1000)/1000` is modelled on exact reals (`MockData.RoundTo3`). Python `round` in the statistics, `toFixed(3)` and `{:.1%}` are left out: the statistics are reported unrounded, and a cell formatter is a parameter.
- `toLocaleDateString` and `Date` parsing are the `dateKey` parameter. `Math.PI` is left out: the gauge circumference is a parameter.
- `Common.Lower`: lower-cases ASCII letters only, while JavaScript's `toLowerCase` covers all of Unicode.
- `fetch`, async timing, cookies, percent-encoding of the query string and the CSV download are not modelled. Replies are inputs, processed in order.
- The SMTP and Twilio transports, MIME building, the SMTP port and the styled HTML e-mail body are not modelled. Whether a hand-over succeeds is an input.
- `float(threshold)` on a non-numeric threshold string raises in the source. The model takes the threshold as an optional number.
- Grouping does not model JavaScript object quirks: keys inherited from `Object.prototype`, and the numeric ordering of integer-like keys. Date and contract keys are ordinary strings.
- `ContractChart.ContractKey`: only the empty contract counts as missing. The type declares the field as always present.
- `Backend.PredictionService.Predict`: a body that is not JSON, so that `data` is None, is not modelled. The body is always a map.
- `Backend.PredictionService.GetDashboardStats`: the exception path "Failed to retrieve dashboard stats" is not reachable in the model, because the aggregation cannot fail here.
- `Backend.PredictionService.GetHistory`: timestamps are integers, and `isoformat` is not modelled.
- `Backend.PredictionService.GetHistory`: MongoDB leaves the order of records with equal sort keys unspecified. The model commits to one of the orders MongoDB may return, insertion order among equal keys, because it sorts stably.
- `Backend.RenameColumns`: the contract does not state the bound on the number of output columns. It follows from `Backend.ColumnMappingInjective`.
- `Histogram.Bins`: requires non-negative probabilities. In the source a negative probability indexes a missing bin and the component throws.

## Findings

| source | as written | input that shows it | evidently intended | confidence | as-written member | corrected member |
|---|---|---|---|---|---|---|
| project/src/components/history/HistoryTable.tsx:48-54, 215-224 | `handleFilterChange` spreads the new key and then writes `page: 1` last, so the Previous and Next buttons, which call it with `'page'`, always set page 1 | filters on page 3; clicking Next gives page 1 | Next goes to page + 1 and Previous to max(1, page − 1); other filter changes reset to page 1 | high (not executed) | HistoryTable.NextAsWrittenStuck | HistoryTable.PagerButtonsMove |
