# Stock-insight ML services in Dafny

This project models the four machine-learning services of the backend
(`backend/app/services/ml/`) that turn market data and news text into the
figures the dashboard shows:

- **Narrative engine** (`narrative_engine.py`). It classifies a text as
  Positive, Negative or Neutral by counting which of ten bullish and ten
  bearish keywords occur in the lower-cased text. The verdict is wrapped in
  a one-sentence narrative.
- **Event impact** (`event_impact_predict.py`). It predicts the impact of a
  news event on a stock. A trained text classifier is used when its file is
  found at one of three candidate paths. Otherwise a count over 17 bullish
  and 17 bearish keywords decides. The model covers both entry points:
  - `predict_event`, for the API;
  - `main`, for the command line, including its argument validation. On
    the command line, a classifier that fails also falls back to keywords.
- **Risk predictor** (`risk_predictor.py`). It preprocesses a dictionary of
  seven features into a 1 x 7 row. It decodes the action model's label
  through `ACTION_MAP`. Its rule engine explains a (risk, action) pair in
  two sentences.
- **Price predictor** (`price_predictor.py`). `predict_price`:
  - appends the live price to the history and keeps the last 120 points;
  - forecasts by averaging an ARIMA and a SARIMA forecast, or, when fitting
    fails, with a damped trend line that continues the move from the
    5-point moving average to the last price, at a tenth of that gap per
    day;
  - backtests on an 80/20 split;
  - dates the forecast on the days after today;
  - scores its confidence from 0 to 100 (`_calculate_confidence_score`).

Modules:

- `Wrappers`: `Option`, `Result`.
- `Numeric`: Python's `min`, `max` and `abs` on reals.
- `Text`: Python's `str.lower`, `str.upper` and `str.strip`, the substring
  test `in`, and the keyword count.
- `NarrativeEngine`, `EventImpact`, `RiskPredictor`, `PricePredictor`: one
  module per source file.

There are no classes: none of the four files keeps an object whose fields
it updates. The code that builds a value step by step is modelled as
methods with local variables:

- the search loop over the model paths in `main`, proved equal to the
  first-existing search `FirstExisting`;
- `msg +=` in `generate_explanation`, proved equal to `Explanation`;
- `score -=` in `_calculate_confidence_score`, proved equal to
  `ConfidenceScoreOf`;
- the flag reassignment in `main` (`RunCli`), not proved equal to one
  function: its report is stated field by field through
  `SimpleSentimentAnalysis`, `MlVerdict`, `KeywordSentiment`,
  `KeywordConfidence`, `KeywordImpact` and `LevelOf`.

Everything outside Dafny's reach becomes a parameter:

- the file system (`pathExists`);
- the unpickled classifier's answer (`ModelRun`, `None` when loading or
  predicting raised);
- the joblib-loaded regressors (`riskModel`, `actionModel`);
- the fitted ARIMA/SARIMA outputs (`EnsembleFit`, `None` when fitting
  raised);
- the backtest's metrics;
- the series statistics: `historical.std()` and the annualised volatility;
- today's date, as a day number.

Floating-point numbers are modelled as reals.

## Model

| member | source | states |
|---|---|---|
| Text.ToLower | backend/app/services/ml/narrative_engine.py:12 | same length; every ASCII capital becomes its lower-case letter, every other character is kept |
| Text.ToUpper | backend/app/services/ml/event_impact_predict.py:138 | same length; every ASCII small letter becomes its capital, every other character is kept |
| Text.ToLowerIdempotent | backend/app/services/ml/narrative_engine.py:12 | a lower-cased string has no ASCII capital left, and lower-casing it again changes nothing |
| Text.Strip | backend/app/services/ml/event_impact_predict.py:138-139 | the result is the piece of the input left after removing only white space from both ends; it neither starts nor ends with white space, and it is empty exactly when the input is all white space |
| Text.Contains | backend/app/services/ml/narrative_engine.py:14-15 | `word in text`: a found word is no longer than the text, and the empty word is found in every text |
| Text.ContainsIff | backend/app/services/ml/narrative_engine.py:14-15 | `word in text` holds exactly when the word occurs at some position of the text (both directions) |
| Text.Matching | backend/app/services/ml/narrative_engine.py:14-15 | a keyword is selected exactly when it is in the list and occurs in the text; never more than the list |
| Text.CountMatches | backend/app/services/ml/narrative_engine.py:14-15 | `sum(1 for word in words if word in text)`: at most the list's length, and zero exactly when no listed word occurs in the text |
| Text.CountIsDistinctMatches | backend/app/services/ml/narrative_engine.py:14-15 | for a list without repeats, the count equals the number of distinct keywords occurring in the text |
| Text.CountMatchesCongruent | backend/app/services/ml/event_impact_predict.py:122-123 | two texts in which the same keywords occur get the same matches and the same count |
| NarrativeEngine.PositiveCount | backend/app/services/ml/narrative_engine.py:9-14 | at most 10 bullish keywords are counted |
| NarrativeEngine.NegativeCount | backend/app/services/ml/narrative_engine.py:10-15 | at most 10 bearish keywords are counted |
| NarrativeEngine.Classify | backend/app/services/ml/narrative_engine.py:17-22 | Positive iff more bullish hits, Negative iff more bearish hits, Neutral iff a tie |
| NarrativeEngine.GenerateNarrative | backend/app/services/ml/narrative_engine.py:1-27 | the empty text gives Neutral with "No text provided for analysis."; any other text gives its sentiment with "Market shows <sentiment> sentiment based on text analysis." |
| NarrativeEngine.SentimentIsCountComparison | backend/app/services/ml/narrative_engine.py:3-22 | for every text, the empty one included, the sentiment is the comparison of the two keyword counts |
| NarrativeEngine.NoKeywordInEmptyText | backend/app/services/ml/narrative_engine.py:3-7 | no non-empty keyword is found in an empty text, so the early return agrees with the counting path |
| NarrativeEngine.NarrativeRoundTrip | backend/app/services/ml/narrative_engine.py:24-27 | the sentiment can be read back from the narrative string |
| NarrativeEngine.CaseInsensitive | backend/app/services/ml/narrative_engine.py:12-15 | a text and its lower-cased form get the same result |
| NarrativeEngine.CountsAreDistinctKeywords | backend/app/services/ml/narrative_engine.py:9-15 | each count is the number of distinct keywords of its list found in the text |
| EventImpact.SimpleSentimentAnalysis | backend/app/services/ml/event_impact_predict.py:108-125 | each count is at most 17 |
| EventImpact.CountsAreDistinctKeywords | backend/app/services/ml/event_impact_predict.py:110-123 | each count is the number of distinct keywords of its list found in the lower-cased text |
| EventImpact.AnalysisIsCaseInsensitive | backend/app/services/ml/event_impact_predict.py:121-123 | lower-casing the event text first does not change either count |
| EventImpact.RiseMatchesInsideEnterprise | backend/app/services/ml/event_impact_predict.py:110-122 | keywords match as substrings, not words: every text that contains "Enterprise", whatever surrounds it, counts the bullish keyword "rise" |
| EventImpact.LabelSentiment | backend/app/services/ml/event_impact_predict.py:36-37 | label 1 gives positive, every other label negative, never neutral |
| EventImpact.LevelOf | backend/app/services/ml/event_impact_predict.py:199-204 | High iff confidence >= 0.75, Moderate iff 0.6 <= confidence < 0.75, Low iff below 0.6 |
| EventImpact.LevelIsMonotone | backend/app/services/ml/event_impact_predict.py:199-204 | a higher confidence never gets a lower level |
| EventImpact.KeywordSentiment | backend/app/services/ml/event_impact_predict.py:236-247 | positive iff more bullish hits, negative iff more bearish hits, neutral iff a tie |
| EventImpact.KeywordConfidence | backend/app/services/ml/event_impact_predict.py:236-247 | 0.55 on a tie; otherwise min(0.65 + 0.05 x winning count, 0.90), always within [0.70, 0.90] |
| EventImpact.KeywordConfidenceGrowth | backend/app/services/ml/event_impact_predict.py:239-243 | for either winner (bullish or bearish), the confidence grows with each further winning keyword and saturates at 0.90 from five on |
| EventImpact.KeywordImpact | backend/app/services/ml/event_impact_predict.py:236-245 | the fallback's impact text has the classifier's format, with the keyword verdict and a Moderate level (Low on a tie) |
| EventImpact.MlImpactEqualIff | backend/app/services/ml/event_impact_predict.py:206 | two impact texts are equal iff they name the same sentiment and the same confidence level (both directions) |
| EventImpact.ApiKeywordSentiment | backend/app/services/ml/event_impact_predict.py:42-43 | positive iff more bullish hits, negative otherwise, never neutral |
| EventImpact.FallbacksDifferOnlyOnTies | backend/app/services/ml/event_impact_predict.py:42-45 | the API's keyword fallback agrees with the command line's except on a tie, where it says negative and the command line says neutral |
| EventImpact.MaxOf | backend/app/services/ml/event_impact_predict.py:96 | `max` returns an element of the list that is at least every element |
| EventImpact.ModelConfidence | backend/app/services/ml/event_impact_predict.py:85-106 | it prefers the largest class probability (an empty list fails); else 1/(1+abs(d)) for the decision value d, which lies in (0, 1]; else 0.75 |
| EventImpact.DecisionConfidence | backend/app/services/ml/event_impact_predict.py:97-101 | the score lies in (0, 1] and times 1 + abs(d) gives 1 |
| EventImpact.ProbabilityConfidenceInUnitRange | backend/app/services/ml/event_impact_predict.py:94-96 | with probabilities in [0, 1], the reported confidence is in [0, 1] |
| EventImpact.PathJoin | backend/app/services/ml/event_impact_predict.py:22-26 | the joined path starts with the first part and ends with the second, separated by exactly one '/' when the first part is non-empty and does not already end in '/', and by nothing otherwise |
| EventImpact.CandidatePaths | backend/app/services/ml/event_impact_predict.py:22-26 | exactly three candidate locations |
| EventImpact.FirstExistingIndex | backend/app/services/ml/event_impact_predict.py:28 | the position of the first existing path, with no existing path before it; the list's length when none exists |
| EventImpact.FirstExisting | backend/app/services/ml/event_impact_predict.py:28 | None iff no candidate exists; otherwise a candidate that exists with no existing candidate before it |
| EventImpact.SelectModelPath | backend/app/services/ml/event_impact_predict.py:171-175 | the for/break loop finds the same path as `next(...)` |
| EventImpact.PredictEvent | backend/app/services/ml/event_impact_predict.py:14-61 | an error result iff a classifier file exists and the classifier fails. A prediction reports the model as loaded iff a classifier file exists. The classifier's sentiment comes from its label and its confidence from `predict_with_model`, with impact "<Sentiment> Impact". Otherwise the sentiment is positive iff more bullish hits, confidence 0.6, impact "<Sentiment> Impact (Keyword-based)". Never neutral; stock and event are echoed |
| EventImpact.RunCli | backend/app/services/ml/event_impact_predict.py:127-272 | fewer than two arguments, an empty stripped stock or event, and an event under 10 characters are rejected in that order, and a report is produced iff none applies. The stock is stripped and upper-cased, the event stripped, and the indicators are the keyword counts. The classifier is used iff its file exists and it succeeds, with level-based impact. Otherwise the three-way keyword verdict and its confidence apply |
| RiskPredictor.Preprocess | backend/app/services/ml/risk_predictor.py:28-32 | a row exists iff all seven features are present; it is a 1 x 7 matrix holding them in `FEATURES` order |
| RiskPredictor.PreprocessIgnoresOtherKeys | backend/app/services/ml/risk_predictor.py:28-32 | two dictionaries that agree on the seven features give the same row |
| RiskPredictor.DecodeAction | backend/app/services/ml/risk_predictor.py:40-43 | a label decodes iff it is 0, 1 or 2, and the decoded action carries that label |
| RiskPredictor.DecodeActionLabel | backend/app/services/ml/risk_predictor.py:21 | decoding an action's label gives back the action (`ACTION_MAP` is a bijection) |
| RiskPredictor.PredictRisk | backend/app/services/ml/risk_predictor.py:35-37 | a score exists iff preprocessing succeeds, and it is the risk model's output on the row |
| RiskPredictor.PredictAction | backend/app/services/ml/risk_predictor.py:40-43 | an action exists iff preprocessing succeeds and the label is in `ACTION_MAP`; its name is SELL, HOLD or BUY |
| RiskPredictor.BandOf | backend/app/services/ml/risk_predictor.py:67-72 | low iff risk < 20, moderate iff 20 <= risk < 50, high iff risk >= 50 |
| RiskPredictor.StanceOf | backend/app/services/ml/risk_predictor.py:75-80 | momentum iff "BUY", balanced iff "HOLD", selling pressure for any other string |
| RiskPredictor.Explanation | backend/app/services/ml/risk_predictor.py:64-80 | the explanation splits into the sentence of the risk band followed by the sentence of the action |
| RiskPredictor.GenerateExplanation | backend/app/services/ml/risk_predictor.py:62-82 | the appended message is the risk sentence followed by the action sentence; the feature dictionary is not read |
| RiskPredictor.ExplanationsEqualIff | backend/app/services/ml/risk_predictor.py:62-82 | two explanations are equal iff their risk bands and action sentences are equal (both directions) |
| RiskPredictor.PredictFull | backend/app/services/ml/risk_predictor.py:46-55 | a result iff both predictions succeed; it holds both and the explanation of the pair |
| RiskPredictor.FullPredictionStance | backend/app/services/ml/risk_predictor.py:75-80 | for a decoded action, the selling-pressure sentence appears iff the action is SELL |
| PricePredictor.Mean | backend/app/services/ml/price_predictor.py:266 | the mean times the number of points is their sum |
| PricePredictor.MeanWithinBounds | backend/app/services/ml/price_predictor.py:86 | the mean of points between two bounds lies between them |
| PricePredictor.MeanOfConstant | backend/app/services/ml/price_predictor.py:97 | the mean of `np.full(steps, std)` is `std` |
| PricePredictor.Tail | backend/app/services/ml/price_predictor.py:37 | the last n points, or all of them when there are fewer |
| PricePredictor.WithLivePrice | backend/app/services/ml/price_predictor.py:35-37 | 1 to 120 points that end with the live price and are preceded by the last 119 historical points |
| PricePredictor.Ensemble | backend/app/services/ml/price_predictor.py:72-80 | each forecast lies between, and equally far from, the two models' forecasts; each interval bound is the average of the two models' bounds; each spread is non-negative and its square is the population variance of the two |
| PricePredictor.EnsembleKeepsIntervals | backend/app/services/ml/price_predictor.py:75-77 | when each model's interval contains its forecast, the averaged interval contains the averaged forecast |
| PricePredictor.EnsembleSpreadNonNegative | backend/app/services/ml/price_predictor.py:80 | the average ensemble spread is never negative |
| PricePredictor.TrendLine | backend/app/services/ml/price_predictor.py:89-91 | `steps` points; the line starts one trend step past the last price and moves by (last - ma)/10 each day |
| PricePredictor.TrendLineDirection | backend/app/services/ml/price_predictor.py:85-91 | the line ends above the last price iff the last price is above the moving average, and below iff below |
| PricePredictor.Fallback | backend/app/services/ml/price_predictor.py:84-97 | the forecast is the trend line from the last price and 5-point mean; the band is symmetric at 1.96 std and contains the forecast when std >= 0; every spread is std |
| PricePredictor.FallbackForecast | backend/app/services/ml/price_predictor.py:84-97 | the fallback ends above the last price iff that price is above the moving average; its average spread is std |
| PricePredictor.TrainSize | backend/app/services/ml/price_predictor.py:102 | the floor of 4n/5 |
| PricePredictor.TrainTestSplit | backend/app/services/ml/price_predictor.py:102-103 | train followed by test is the whole series, and train holds the floor of 80% |
| PricePredictor.TestPartNonEmpty | backend/app/services/ml/price_predictor.py:103-106 | a non-empty series always leaves a non-empty test part |
| PricePredictor.FutureDays | backend/app/services/ml/price_predictor.py:135-138 | `steps` consecutive days, the first being the day after the last known day |
| PricePredictor.UncertaintyPenalty | backend/app/services/ml/price_predictor.py:266-268 | 5 points per unit of average spread up to the cap, exactly 30 from there on; never negative for a non-negative spread |
| PricePredictor.VolatilityPenalty | backend/app/services/ml/price_predictor.py:271-272 | 2 points per unit of volatility up to the cap, exactly 20 from there on; never negative for a non-negative volatility |
| PricePredictor.MapePenalty | backend/app/services/ml/price_predictor.py:275-278 | half the MAPE up to the cap, exactly 30 from there on; zero without metrics or without a "mape" entry |
| PricePredictor.Clamp | backend/app/services/ml/price_predictor.py:280 | the result lies in [0, 100]: 0 below the range, 100 above it, the score itself inside it |
| PricePredictor.ConfidenceScoreOf | backend/app/services/ml/price_predictor.py:262-280 | the score lies in [0, 100] |
| PricePredictor.CalculateConfidenceScore | backend/app/services/ml/price_predictor.py:250-280 | subtracting the penalties in turn and clamping gives the score above, which lies in [0, 100] |
| PricePredictor.ScoreAtLeastTwenty | backend/app/services/ml/price_predictor.py:262-280 | with non-negative inputs the score is at least 20 |
| PricePredictor.PerfectScore | backend/app/services/ml/price_predictor.py:262-280 | no uncertainty, no volatility and no MAPE give exactly 100 |
| PricePredictor.ScoreIsAntitone | backend/app/services/ml/price_predictor.py:262-280 | more uncertainty, volatility or MAPE never raise the score |
| PricePredictor.Rows | backend/app/services/ml/price_predictor.py:164-173 | one row per future day holding that day's forecast, bounds and spread |
| PricePredictor.PredictPrice | backend/app/services/ml/price_predictor.py:17-191 | fails iff `steps <= 0`. See the breakdown below |

`PricePredictor.PredictPrice` (price_predictor.py:17-191) states:

- symbol, live price, volatility and confidence level are passed through;
- the kept history ends in the live price;
- there are `steps` rows dated on the following days, each holding that day's forecast, bounds and spread of the forecast used (the ensemble or the fallback);
- t1 is the first forecast and t10 the last;
- the direction is up iff t10 exceeds the live price;
- the score lies in [0, 100];
- the metrics are the backtest's;
- for the ensemble, the prices are the model averages and the score uses the ensemble's spread;
- for the fallback:
  - the prices follow the trend line;
  - the band contains the forecast when `historical.std()` is not negative;
  - the direction is up iff the live price is above the 5-point average;
  - the score uses `historical.std()`.

## Left out

- I/O. This covers:
  - `safe_print` and the JSON encoding;
  - stderr logging;
  - the `analysis` prose of `main`;
  - timestamps (`datetime.now()`, `live_time`);
  - the date strings (dates are day numbers);
  - the `round(...)` of the reported confidences;
  - the exact text of `main`'s error, `method` and lower-case `sentiment` strings, which the datatypes `CliError`, `PredictionMethod` and `EventSentiment` stand for;
  - the scaling of the reported confidence to a percentage (lines 52 and 263). The `confidence` fields of `EventResult` and `CliOutput` hold the fraction between 0 and 1 before the source multiplies it by 100. On the command line that fraction is also the reported `sentiment_score` (line 266), before rounding.
- `load_model` and `predict_with_model`'s `model.predict`: pickle loading and the classifier are opaque. Only their success or failure, the label and the probability/decision capabilities are inputs.
- `predict_event_impact` only calls `predict_event` and has no model of its own.
- The generic `except` branch of `generate_narrative` and `main`'s outer `except`: nothing modelled can raise in them.
- Text.ToLower, Text.ToUpper: only ASCII letters change case. Python's full Unicode case mapping is not modelled. Some non-ASCII characters lower-case to ASCII letters in Python (U+212A KELVIN SIGN becomes 'k'), so a text spelling a keyword with them is counted by the source and not by the model. `upper` can also change a string's length ('ß' becomes "SS").
- `risk_model`/`action_model` loading at import time and the numpy array type: a row is a sequence of sequences.
- `price_predictor.py`:
  - `get_historical` and `get_live_price` (network);
  - reading the model orders from the pickle bundle;
  - the ARIMA/SARIMAX fitting and forecasting;
  - the backtest's RMSE/MAE/MAPE;
  - `historical.std()`;
  - the volatility formula of line 144-145.

  These are parameters of `PredictPrice`.
- `_calculate_indicators` (SMA, EMA, Bollinger bands, RSI, MACD): a pandas computation passed through to the output unexamined. It is not part of this model.
- `recent_10d_change` and `percentage_change` (lines 147 and 179) are display-only ratios that divide by a price; they are not modelled.
- `model_info` is not modelled either.
- `get_prediction_summary` and `compare_models` only reshape `predict_price` or raw model output. They are not part of this model.
- Floating point: reals replace doubles, and NaN and infinities are not represented.
- PricePredictor.CalculateConfidenceScore requires a non-empty `forecast_std`. For an empty one, numpy's mean is NaN, which reals cannot represent. `predict_price` never reaches a valid result with an empty forecast: `final_fc[0]` raises, and that is `PredictPrice`'s error case.
- PricePredictor.PredictPrice: the fallback's `accuracy_metrics = None` at line 99 and the `else` at line 129 have no effect on the result. The live price is always appended, so the test part is never empty (`TestPartNonEmpty`), and the backtest always overwrites the metrics.
- PricePredictor.TrainSize: `int(n * 0.8)` is taken as the floor of 4n/5. This holds for every series of at most 120 points, which is all `predict_price` passes.
- `alpha_vintage.py`, `run_project.py` and the front-end client pipeline are not part of this model.
