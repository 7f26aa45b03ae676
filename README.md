# EcoGuard risk-scoring pipeline in Dafny

This project models the decision logic of the EcoGuard backend. The backend turns
weather, air-quality and social-sentiment signals for a point into a composite
environmental risk score from 1 to 10, with a severity label. Five components are modelled, each in
its own module:

- `RiskMl` (`backend/utils/risk_ml.py`): the rule-based classifier. Threshold
  points for temperature, humidity and PM2.5 are accumulated one rule at a time,
  and the label is 1 when there are at least three points.
- `RiskModel` (`backend/services/risk_model.py`): the weighted-average hybrid
  scorer. Temperature, AQI and humidity are read with their defaults and the
  environmental score is clamped to [1, 10]. It is then blended 70/30 with a social
  score and rounded to one decimal. Any failure gives the neutral 5.0.
- `SocialService` (`backend/services/social_service.py`): the social stress
  scorer. It counts the stress words in the joined, lower-cased sample and turns the
  average polarity plus that count into a clamped, rounded score. It also labels
  each message of a second sample Positive, Negative or Neutral.
- `DataService` (`backend/services/data_service.py`): snapshot normalisation.
  Weather and air-quality records are flattened into one fully populated
  metrics record.
- `RiskEngine` (`backend/services/risk_engine.py`): the aggregator. It has the
  error guard and the classifier label with its "Unavailable" fallback. It also has
  the "Local Area" default, the 70/30 combination, the severity table and the
  assembled result.

Three shared modules support them. `Wrappers` holds `Option` and `Result`.
`Values` holds `Json`, the dynamically typed dictionary values the backend
passes around, and Python's `dict.get`. `Numeric` holds the clamp, and Python's
`round(x, 1)` modelled on exact reals as `RoundTenth`.

All measurements and scores are `real`; point counts, labels and clock readings are integers. Dictionaries whose keys the source tests are
`map<string, Json>`; a value that is not a number or not a dictionary is the
case in which Python raises. The providers' records read by `DataService` are
typed records with optional fields.

The components do not call each other consistently in the source. So every
collaborator is a parameter rather than a reproduced call:
- `risk_engine.py:21` calls `social_service.get_social_stress`, which does not exist.
  The aggregator therefore takes a function `socialStress` from the location name
  to the social record.
- `risk_engine.py:22` calls `calculate_risk_score(data["raw_weather"], data["raw_aqi"])`.
  It expects a dictionary with `score`, `level` and `factors`. The function it names
  is asynchronous, takes other arguments and returns a number. The aggregator takes
  a function `assess` of the two raw records instead.
- `get_environmental_data` never produces `error`, `raw_weather` or `raw_aqi`.
  `RiskEngine.NormalisedDataLacksRawRecords` proves that its output, with numeric
  readings, therefore raises at `data["raw_weather"]`, even with working collaborators.
- `get_environmental_data` reads PM2.5 from a top-level `components` block.
  The air-quality provider nests it under `list[0]` (`backend/services/aqi_api.py:27-29`).
  So the provider's reading is replaced by 0 (`DataService.ProviderPm25IsLost`).

The defaults are the code's own:
- The environmental scorer is the weighted-average form of `risk_model.py:19`.
- Its defaults are temperature 25, AQI 1 and humidity 50 (`risk_model.py:13-15`).
- The snapshot defaults are 0 for temperature, humidity, PM2.5, wind and rain, and 5.0 for UV (`data_service.py:8-19`).
- The social scorer returns a number only; it computes no severity label.

## Model

| member | source | states |
|---|---|---|
| `Numeric.Clamp` | backend/services/risk_model.py:20 | the result lies in [lo, hi], equals x inside the range and the nearer bound outside it |
| `Numeric.ClampMonotone` | backend/services/social_service.py:43 | clamping preserves order |
| `Numeric.RoundTenth` | backend/services/risk_model.py:25 | `round(x, 1)` is a whole number of tenths within 0.05 of x |
| `Numeric.RoundTenthMonotone` | backend/services/risk_model.py:25 | rounding to one decimal preserves order |
| `Numeric.RoundTenthOfTenth` | backend/services/risk_model.py:25 | a value that already has one decimal is unchanged by rounding |
| `Numeric.RoundTenthKeepsScale` | backend/services/social_service.py:43-44 | rounding maps [1, 10] into [1, 10] |
| `RiskMl.Points` | backend/utils/risk_ml.py:5-10 | the accumulated points lie in [0, 8] |
| `RiskMl.PredictRisk` | backend/utils/risk_ml.py:2-13 | the label is 0 or 1, and it is 1 exactly when the five rules award at least 3 points |
| `RiskMl.PointsMonotone` | backend/utils/risk_ml.py:6-12 | raising temperature, humidity or PM2.5 never lowers the points, so never the label |
| `RiskMl.ThresholdsAreStrict` | backend/utils/risk_ml.py:6-10 | at temperature 30, humidity 80 and PM2.5 50 no rule fires |
| `RiskMl.Pm25Alone` | backend/utils/risk_ml.py:9-12 | with the weather below its thresholds, PM2.5 above 100 gives 5 points, PM2.5 in (50, 100] gives 2 points and lower PM2.5 gives none |
| `RiskMl.Pm25AboveHundredIsHighRisk` | backend/utils/risk_ml.py:10-12 | PM2.5 above 100 reaches the high-risk label whatever the weather |
| `RiskMl.Examples` | backend/utils/risk_ml.py:5-13 | (36, 85, 120) accumulates 8 points and (20, 50, 10) accumulates none |
| `RiskModel.TempTerm` | backend/services/risk_model.py:19 | the temperature term is at most 10, is 10 from 40 degrees up and is temp/4 below that, with no lower floor |
| `RiskModel.TempTermHasNoFloor` | backend/services/risk_model.py:19 | at -40 degrees the temperature term is -10 |
| `RiskModel.EnvScore` | backend/services/risk_model.py:19-20 | the environmental score lies in [1, 10] and equals the unclamped average when that is already in range |
| `RiskModel.CombinedScore` | backend/services/risk_model.py:23-25 | the 70/30 blend is a whole number of tenths within 0.05 of env*0.7 + social*0.3, and lies in [1, 10] when both inputs do |
| `RiskModel.CombinedScoreMonotone` | backend/services/risk_model.py:23-25 | the blend is non-decreasing in both the environmental and the social score |
| `RiskModel.CalculateRiskScore` | backend/services/risk_model.py:1-27 | the result has one decimal; it is exactly 5.0 when the data is not a dictionary or a reading or the social score is not a number; it lies in [1, 10] whenever the social score does |
| `RiskModel.CalculateRiskScoreBlends` | backend/services/risk_model.py:13-25 | on numeric readings the result is the blend of the clamped environmental score with the social score |
| `RiskModel.MissingFieldsDefault` | backend/services/risk_model.py:13-15 | a missing temperature, AQI or humidity behaves exactly as 25, 1 or 50 |
| `RiskModel.AllDefaults` | backend/services/risk_model.py:13-20 | with every reading missing the environmental score is 43/12 |
| `RiskModel.CalculateRiskScoreMonotoneInSocial` | backend/services/risk_model.py:23-27 | a higher social score never lowers the hybrid score, for every environmental input including the 5.0 fallback |
| `RiskModel.Computable` | backend/services/risk_model.py:13-27 | the computation avoids the 5.0 fallback exactly when the data is a dictionary, the social score is a number, and each of temperature, AQI and humidity that is present is a number (an absent one takes its default) |
| `SocialService.WordInMessageIsFound` | backend/services/social_service.py:32-34 | a word found in any lower-cased sampled message, even inside a longer word, is found in the searched text |
| `SocialService.MatchCount` | backend/services/social_service.py:31-35 | the stress count never exceeds the number of indicators |
| `SocialService.MatchCountIsMatchedIndices` | backend/services/social_service.py:33-35 | the stress count is the number of distinct indicators present, each counted once |
| `SocialService.MatchCountDependsOnPresence` | backend/services/social_service.py:33-35 | the count depends only on which indicators occur, not how often |
| `SocialService.AverageIsPolarity` | backend/services/social_service.py:27-28 | the average of polarities in [-1, 1] lies in [-1, 1] |
| `SocialService.BaseScore` | backend/services/social_service.py:40 | for a polarity in [-1, 1] the base score lies in [0, 10] |
| `SocialService.StressBonus` | backend/services/social_service.py:41 | for at most 7 indicators the bonus lies in [0, 5] |
| `SocialService.StressScore` | backend/services/social_service.py:40-44 | the social score lies in [1, 10] and has one decimal |
| `SocialService.StressScoreMonotone` | backend/services/social_service.py:40-43 | the score is non-increasing in average polarity and non-decreasing in stress count |
| `SocialService.GetSocialScore` | backend/services/social_service.py:20-44 | the score is the stress score of the sample's average polarity and of the number of indicators in its joined lower-cased text, and lies in [1, 10] |
| `SocialService.SentimentOf` | backend/services/social_service.py:54 | Positive iff polarity > 0, Negative iff < 0, Neutral iff = 0 |
| `SocialService.GetRecentPulse` | backend/services/social_service.py:46-56 | one entry per sampled message, in order, keeping its text and labelled by its polarity |
| `DataService.GetEnvironmentalData` | backend/services/data_service.py:5-24 | each field is the provided reading when present and its default otherwise (0, or 5.0 for UV); the two derived fields are temperature*0.98 and rainfall*2.5 rounded to one decimal |
| `DataService.ProviderPm25IsLost` | backend/services/data_service.py:10-11 | a PM2.5 reading nested under the provider's `list` is never read: the result has PM2.5 0 |
| `DataService.EmptyRecordsDefaults` | backend/services/data_service.py:8-24 | with every block missing each field takes its default |
| `DataService.ToDict` | backend/services/data_service.py:13-24 | the metrics dictionary always has exactly its ten keys, each holding its field of the record |
| `RiskEngine.Severity` | backend/services/risk_engine.py:26-29 | Critical iff score >= 8, High iff 6 <= score < 8, Moderate iff 4 <= score < 6, Low iff score < 4 |
| `RiskEngine.SeverityMonotone` | backend/services/risk_engine.py:26-29 | a higher score never gives a lower severity |
| `RiskEngine.SeverityBoundaries` | backend/services/risk_engine.py:26-29 | 8.0 is Critical, 7.9 and 7.999 are High, 6.0 is High, 4.0 is Moderate, 3.9 and 3.999 are Low |
| `RiskEngine.MlFeatures` | backend/services/risk_engine.py:14-19 | the classifier is reached exactly when temperature, humidity and PM2.5 are present and numeric, and then with those three values |
| `RiskEngine.LocationName` | backend/services/risk_engine.py:20 | the location is "Local Area" without a raw weather record, its `name` when present, and the call raises when the record is not a dictionary |
| `RiskEngine.FaultOf` | backend/services/risk_engine.py:12-22 | the call raises, in this order, on an `error` entry, on a raw weather value that is not a dictionary, on a missing `raw_weather` key and on a missing `raw_aqi` key; it raises on nothing else |
| `RiskEngine.AnalyzeRisk` | backend/services/risk_engine.py:10-39 | an `error` entry fails the call with it; the call also fails on a raw weather value that is not a dictionary and on a missing `raw_weather` or `raw_aqi` key, exactly as `FaultOf` orders them; otherwise the result has the 70/30 combination, in [1, 10] when both sub-scores are, its severity from the table, the ML label with its fallback, and passes the sub-results and the data through unchanged |
| `RiskEngine.NormalisedDataLacksRawRecords` | backend/services/risk_engine.py:12-22 | normalised snapshot data has no `error` entry; with numeric readings it reaches the classifier, takes the default location and then raises on the missing `raw_weather` key |
| `RiskEngine.CombinedExample` | backend/services/risk_engine.py:25-29 | environmental 8 and social 4 combine to 6.8, which is High |

## Left out

- The HTTP clients `backend/services/weather_api.py` and `backend/services/aqi_api.py` are not modelled. They are network I/O with random fallbacks, and their records are inputs here.
- `backend/main.py` (routing, static files, HTTP 500 mapping) and `frontend/app.js` (DOM, map and chart) are not part of this model.
- TextBlob polarity is a foreign library. Each message's polarity is an input, assumed in [-1, 1] where a lemma needs it.
- `random.sample` is an input: a sequence of distinct feed messages of length 5, or 4 for the pulse.
- `datetime.now()` is an input clock reading (hour and weekday).
- `async`/`await` is not modelled; every operation is sequential.
- The `lat`, `lon` arguments of `get_social_score` are unused in the source and omitted.
- The `lat`, `lon` arguments of `analyze_risk` only feed the `get_environmental_data(lat, lon)` call (`risk_engine.py:11`). `RiskEngine.AnalyzeRisk` takes the normalised `data` in place of that call, so they have no role in the model.
- The module-level singleton instances are omitted. `SocialService`'s feed and vocabulary are never changed after construction, so they are module constants.
- Numeric.RoundTenth: models `round(x, 1)` on exact reals with ties rounded upwards. Python rounds the binary double half-to-even, so a tie can round the other way. The proved properties (one decimal, within 0.05, order-preserving, [1, 10] kept) hold for both.
- SocialService.Lower: lower-cases ASCII letters only; Python's `str.lower` also folds other Unicode letters.
- DataService.GetEnvironmentalData: the provider records are typed, so every reading is a real. In Python a block that is not a dictionary raises. A non-numeric temperature or rainfall raises in the rounded fields (`data_service.py:22-23`). A non-numeric humidity or PM2.5 is copied through unchanged, and the classifier in `analyze_risk` then raises and takes its "Unavailable" fallback. A non-numeric wind speed or UV index is copied through too, but the core never reads it. None of these cases is modelled for the normaliser; `RiskEngine.AnalyzeRisk` does model the fallback for any `data` dictionary.
- `Values.Json` has no booleans or lists. Python would treat a boolean reading as a number.
- RiskEngine.AnalyzeRisk: the raised exceptions are modelled by kind (`Fault`), without their messages.
- Floating-point overflow, NaN and infinities are not modelled.
