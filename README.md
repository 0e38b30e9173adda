# Traffic-Prediction decision logic in Dafny

This project models the decision logic of a traffic-prediction web
application. Its parts are:

- the `/predict` endpoint (`main.py`). It rejects weather conditions the
  weather encoder does not know. It reads the hour and combines three factors
  (rush hour, bad weather, junction) into a traffic level Low, Moderate or
  High. It picks the safety rule for that level and draws a simulated
  20-entry history.
- the two labelling rules of the preprocessing script (`map_severity` and
  the `IsRushHour` column).
- the form component. It holds a four-field form state that changes one field
  per change event. On submit it runs four checks in a fixed order and stops
  at the first failure.
- the results component. It maps the condition to a style class and the
  weather to an icon, both case-insensitively. It counts the history into
  three exact-case buckets and builds a three-bar chart.
- the page component. It has three state cells (loading flag, last result,
  last weather). One submission moves them through loading to success or to
  one of three kinds of failure.

Modules follow the source files. `Backend` is `main.py`, `Preprocessing` is
`data_preprocessing.py`, `Form` is `PredictionForm.tsx`, `Results` is
`ResultsSection.tsx` and `Page` is `Index.tsx`. `Api` holds the JSON shapes the
endpoint and the page exchange. `Ascii` holds the lowercasing the frontend
relies on, and `Wrappers` holds `Option`/`Result`. `Agreement` proves that the
files agree with each other: the two rush-hour rules coincide, and the
backend's labels are the ones the frontend counts and styles.

Inputs the model takes as parameters, in place of I/O and library calls:

- the encoder's class set (`weatherClasses`), instead of loading
  `weather_encoder.joblib`;
- `parseHour`, the result of `datetime.fromisoformat` on the request's
  `DateTime` (the hour, or the error text it raises);
- the 20 values `np.random.random()` returns (`draws`), as exact reals;
- `parseInt`, the JavaScript integer parser, which gives an integer or NaN (`JsNumber`);
- `toIso`, i.e. `new Date(s).toISOString()`, which is `None` when it throws on an invalid date;
- `post`, i.e. how the axios POST settles (`HttpOutcome`): a 2xx body, an
  error with a response and an optional string `detail`, an error with a
  request but no response, or an error with neither.

Toast notifications are returned as values (`Toast`, `SubmitEffect`).

The frontend's `toLowerCase` is modelled on ASCII letters only. Every other
character is left unchanged.

`str()` of the `HTTPException` raised for an unknown weather is modelled as
`"400: Invalid weather condition"`. That is the status code, a colon and the
detail, which is how Starlette's `HTTPException` renders as text.

Junction is a JavaScript number in the form. The check `Junction < 0`
rejects every negative value, including the sentinel −1. A NaN passes it,
because NaN compares false. The model keeps this as written. The select
element only offers −1, 0 and 1, so a NaN does not arise from the page itself.

## Model

| member | source | states |
|---|---|---|
| `Backend.RushHourIsListedHours` | main.py:67 | for every hour 0–23, rush hour holds exactly for the six hours 7, 8, 9, 16, 17 and 18 |
| `Backend.FactorsMatchExactly` | main.py:68-69 | bad weather is exactly "Rain", "Snow" or "Fog", so "rain", "RAIN", "Clear" and "Cloudy" are not. A junction counts only when the field is 1, so 0, 2 and −1 do not |
| `Backend.PredictedLevel` | main.py:67-76 | a request's level is High iff at least two of rush hour, an exact "Rain"/"Snow"/"Fog" weather and `Junction == 1` hold, Moderate iff exactly one holds, and Low iff none holds |
| `Backend.Classify` | main.py:71-76 | the level is High iff at least two of the three factors hold, Moderate iff exactly one holds, and Low iff none holds |
| `Backend.ClassifyMonotone` | main.py:71-76 | switching any one factor on never lowers the level in the order Low < Moderate < High |
| `Backend.RuleDeterminesLevel` | main.py:79-84 | the rule depends on the level alone, and the three levels get three different rules |
| `Backend.WeightsAreDistribution` | main.py:89 | every level's weight triple is non-negative and sums to 1 |
| `Backend.BucketIntervals` | main.py:92-98 | a draw in [0, 1) selects Low, Moderate or High on three consecutive intervals, each as long as that level's weight |
| `Backend.BucketMonotone` | main.py:92-98 | a larger draw never selects a lower level |
| `Backend.HistoryFor` | main.py:87-99 | the history has one entry per draw, in order, and each entry is "Low", "Moderate" or "High" as that draw's bucket selects |
| `Backend.BuildHistory` | main.py:91-99 | the loop produces exactly 20 entries, each one of the three level names, equal to the history specified for the draws |
| `Backend.BlanketExcept` | main.py:110-111 | every exception raised in the handler becomes status 500, with the exception's text as detail |
| `Backend.IntendedExcept` | main.py:59-60 | the handler's own 400 keeps its status and detail, and any other exception becomes a 500 |
| `Backend.BlanketExceptMasksBadRequest` | main.py:110-111 | the as-written clause answers an unknown weather with 500 and "400: Invalid weather condition", not with the intended 400 |
| `Backend.ExceptClausesAgreeOnParseErrors` | main.py:110-111 | both clauses handle a date-parsing error the same way |
| `Backend.TryBlock` | main.py:57-108 | an unknown weather is rejected before the date is parsed, and a parse error comes next. Otherwise the result carries the level computed from the three factors, its rule and the 20-entry history |
| `Backend.Predict` | main.py:55-111 | as written: success iff the weather is known and the date parses. An unknown weather gives 500 with "400: Invalid weather condition", a parse error gives 500 with its text, and a success gives the predicted level, its rule and its history |
| `Backend.PredictIntended` | main.py:55-111 | corrected: the same as `Predict`, except that an unknown weather gives 400 with "Invalid weather condition" |
| `Preprocessing.MapSeverity` | data_preprocessing.py:22-29 | the label is always Low, Moderate or High. It is Moderate iff the severity is 2 or 3, High iff it is 4, and Low otherwise |
| `Preprocessing.MapSeverityFallback` | data_preprocessing.py:29 | a missing severity, or one outside 1–4, gives Low |
| `Preprocessing.IsRushHourFlag` | data_preprocessing.py:38 | the flag is 0 or 1, and it is 1 iff the hour is one of 7, 8, 9, 16, 17 and 18 |
| `Agreement.RushHourRulesAgree` | data_preprocessing.py:38 | for every hour, the preprocessing flag is 1 exactly when the backend's `is_rush_hour` holds |
| `Agreement.SeverityLabelsAreLevelNames` | data_preprocessing.py:22-29 | every label `map_severity` writes is the name of a backend level |
| `Agreement.BackendLevelsAreDisplayed` | main.py:71-76 | every level name the backend sends is an exact-case key of the frontend counter and gets a non-empty style class |
| `Agreement.LevelNamesFullyCounted` | src/components/ResultsSection.tsx:52-58 | a history spelled only with the backend's three level names is counted in full: the three counts add up to its length |
| `Agreement.BackendHistoryFullyCounted` | src/components/ResultsSection.tsx:52-58 | the frontend counts every entry of a backend history, so the three counts add up to the number of draws |
| `Agreement.ResponseChartSumsTo20` | main.py:91-99 | the three chart bars of a response's history add up to 20 |
| `Agreement.InvalidWeatherNotice` | src/pages/Index.tsx:45-48 | for an unknown weather the page shows "Invalid weather condition" from the corrected handler, and "400: Invalid weather condition" from the handler as written |
| `Ascii.ToLowerMatchesCaseVariants` | src/components/ResultsSection.tsx:21 | a string lowercases to a lower-case word iff it spells that word in some mixture of ASCII cases |
| `Ascii.ToLowerOfToUpper` | src/components/ResultsSection.tsx:21 | capitalising a string first does not change its lower-case form |
| `Results.TrafficClass` | src/components/ResultsSection.tsx:20-31 | the class is traffic-low, traffic-moderate or traffic-high iff the lowercased condition is low, moderate or high, and "" otherwise |
| `Results.TrafficClassAcceptsAnyCase` | src/components/ResultsSection.tsx:20-31 | each level's class is given to exactly the spellings of that level in any ASCII case, and every other string gets "" |
| `Results.TrafficClassIgnoresUpperCase` | src/components/ResultsSection.tsx:21 | writing the condition in capitals does not change its class |
| `Results.MixedCaseModerate` | src/components/ResultsSection.tsx:24-25 | "MODERATE" gets the moderate class |
| `Results.WeatherIcon` | src/components/ResultsSection.tsx:33-47 | the rain, snow, fog and cloudy icons are chosen iff the lowercased weather is that word, and every other string gets the sun |
| `Results.WeatherIconAcceptsAnyCase` | src/components/ResultsSection.tsx:33-47 | each icon is given to exactly the ASCII-case spellings of its word. The sun goes to everything else, "clear" and unknown values included |
| `Results.CountTraffic` | src/components/ResultsSection.tsx:52-58 | the loop's counts are the exact-case number of "Low", "Moderate" and "High" entries |
| `Results.OccurrencesIsMultiplicity` | src/components/ResultsSection.tsx:54-58 | each count is the multiplicity of its exact label in the history's multiset |
| `Results.TallyIgnoresOrder` | src/components/ResultsSection.tsx:54-58 | two histories that are reorderings of each other give the same counts |
| `Results.TallyBound` | src/components/ResultsSection.tsx:52-58 | Low + Moderate + High ≤ the history's length, with equality iff every entry is exactly one of the three labels |
| `Results.UncountedEntryIgnored` | src/components/ResultsSection.tsx:55-56 | appending an entry in any other spelling, such as "low", changes no count |
| `Results.ExampleHistoryCounts` | src/components/ResultsSection.tsx:52-58 | the history Low, Low, High gives the counts 2, 0 and 1 |
| `Results.ChartCountsHistory` | src/components/ResultsSection.tsx:60-64 | the chart has three bars, named Low, Moderate and High in that order. Each bar's value is the number of entries spelled exactly as its name |
| `Results.Render` | src/components/ResultsSection.tsx:17-64 | the view shows the condition and rule unchanged, with the class of the condition and the icon of the weather. Its chart is the chart of the history's counts: three bars named Low, Moderate and High in that order, each holding the number of entries spelled exactly as its name |
| `Form.Updated` | src/components/PredictionForm.tsx:29-39 | a change event replaces only the field its element id names: Junction and speed get the parsed value, weather and date/time get the raw value. Any other id changes nothing |
| `Form.PredictionForm.constructor` | src/components/PredictionForm.tsx:19-24 | the form starts with an empty DateTime, Junction −1, an empty weather and speed 0 |
| `Form.PredictionForm.HandleChange` | src/components/PredictionForm.tsx:26-40 | the new form state is the old one updated by the event, leaving every other field as it was |
| `Form.Validate` | src/components/PredictionForm.tsx:46-65 | an accepted form has a non-empty DateTime, a Junction that is not negative, a non-empty weather and a speed in 10–100. The speed check fails iff the first three pass and the speed is NaN or outside 10–100 |
| `Form.ValidateReportsFirstFailure` | src/components/PredictionForm.tsx:46-65 | the checks run in the order date/time, junction, weather, speed. The verdict names a check iff it fails and every earlier one passes, and the form is accepted iff all four pass |
| `Form.MessagesDistinct` | src/components/PredictionForm.tsx:46-65 | each of the four checks has its own message |
| `Form.UnusableSpeedRejected` | src/components/PredictionForm.tsx:61-62 | a NaN speed or a speed of 0 fails the speed check |
| `Form.InitialRejected` | src/components/PredictionForm.tsx:19-49 | the initial form state is rejected at the date/time check |
| `Form.UneditedFieldsKeepInitial` | src/components/PredictionForm.tsx:19-39 | a field that no change event names keeps its initial value |
| `Form.AcceptedNeedsEveryInput` | src/components/PredictionForm.tsx:19-65 | starting from the initial state, a submission can only be accepted after change events for all four inputs |
| `Form.PredictionForm.HandleSubmit` | src/components/PredictionForm.tsx:42-68 | `onPredict` is called iff all four checks pass, and it receives the form state unchanged. Otherwise the message of the first failing check is shown |
| `Page.FailureMessage` | src/pages/Index.tsx:43-53 | a response shows its non-empty `detail`, or "Failed to generate prediction." when there is none. A request with no response shows the unreachable-server message, and an error with neither shows the generic message |
| `Page.Payload` | src/pages/Index.tsx:20-23 | the payload is the form data with only DateTime replaced by its ISO form |
| `Page.IndexPage.constructor` | src/pages/Index.tsx:11-13 | the page starts not loading, with no result and an empty weather |
| `Page.IndexPage.BeginPredict` | src/pages/Index.tsx:15-36 | when the date formats, the loading flag is set while the payload is outstanding. When it does not, the generic error is shown and loading is cleared. The result and weather are untouched in both cases |
| `Page.IndexPage.CompletePredict` | src/pages/Index.tsx:38-56 | loading is cleared in every case. On success the result becomes the body and the weather becomes the submitted one. On failure both keep their values and the classified message is shown |
| `Page.IndexPage.HandlePredict` | src/pages/Index.tsx:15-57 | after a whole submission loading is false. A payload is sent iff the date formats. Success records the body and the submitted weather, and every failure leaves the result and weather as they were |

## Left out

- FastAPI setup, CORS, the request-logging middleware, the root route, uvicorn startup and prints (main.py:9-32, 101-102, 113-119): server plumbing.
- Loading `weather_encoder.joblib`: a file load. The class set is a parameter.
- Pydantic's request validation (a 422 before the handler runs, e.g. for a NaN junction sent as `null`): library behaviour. An error whose `detail` is not a string is outside `HttpOutcome`.
- Date parsing and formatting (`datetime.fromisoformat`, `new Date(...).toISOString()`): library calls, taken as parameters.
- Backend.Bucket: the draws are exact reals. The model does not capture floating-point rounding of the thresholds or the distribution of `np.random.random()`.
- Preprocessing.IsRushHourFlag: takes an integer hour. The NaN hour of an unparsable timestamp is not modelled; those rows are dropped later in the script.
- The rest of data_preprocessing.py (CSV I/O, `fillna`, `LabelEncoder`, `joblib.dump`) and all of train_model.py and download_data.py: DataFrame, sklearn and download plumbing.
- `parseInt` and Unicode `toLowerCase`: runtime functions. `parseInt` is a parameter and lowercasing is restricted to ASCII.
- JSX rendering, SVG icons, the recharts bar colours, console logging, and Header, Footer, BackgroundVideo and capacitor.config.ts: presentation only.
- Disabling the submit button while loading (src/components/PredictionForm.tsx:174): a UI guard. Overlapping submissions are not modelled; `CompletePredict` requires that a request is outstanding.
- React's asynchronous state updates: each setter is a field assignment.

## Findings

| source | as written | input that shows it | evidently intended | confidence | as-written member | corrected member |
|---|---|---|---|---|---|---|
| main.py:110-111 | the blanket `except Exception` also catches the `HTTPException(400, "Invalid weather condition")` raised at main.py:60 and re-raises it as status 500 with detail "400: Invalid weather condition" | a request whose `Weather_Condition` is "Sunny" when the encoder's classes do not include it | an unknown weather is answered with status 400 and detail "Invalid weather condition" | high, not executed | `Backend.Predict` (with `Backend.BlanketExceptMasksBadRequest`) | `Backend.PredictIntended` |
