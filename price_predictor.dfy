/**
 * Model of the post-processing in backend/app/services/ml/price_predictor.py. `predict_price`
 * appends the live price to the fetched history, keeps the last 120 points, forecasts with an
 * ARIMA/SARIMA ensemble (or, if fitting fails, with a damped trend line), backtests on an
 * 80/20 split, and scores its own confidence between 0 and 100.
 *
 * The fitted models, the backtest and the series statistics (standard deviation, annualised
 * volatility) are inputs: only the arithmetic and the decisions around them are modelled, over
 * real numbers.
 */
module PricePredictor {
  import opened Wrappers
  import opened Numeric

  // ---------------------------------------------------------------------------
  // Averages and windows
  // ---------------------------------------------------------------------------

  function Sum(s: seq<real>): real {
    if s == [] then 0.0 else Sum(s[..|s| - 1]) + s[|s| - 1]
  }

  /** Arithmetic mean (`np.mean`, `Series.mean`) of a non-empty series. */
  function Mean(s: seq<real>): (m: real)
    requires |s| > 0
    ensures m * |s| as real == Sum(s)
  {
    Sum(s) / |s| as real
  }

  lemma {:induction false} SumOfConstant(c: real, n: nat)
    ensures Sum(seq(n, _ => c)) == n as real * c
  {
    if n > 0 {
      var s := seq(n, _ => c);
      assert s[..n - 1] == seq(n - 1, _ => c);
      SumOfConstant(c, n - 1);
    }
  }

  /** The mean of `n` copies of `c` is `c` (so `np.mean(np.full(steps, std)) == std`). */
  lemma MeanOfConstant(c: real, n: nat)
    requires n > 0
    ensures Mean(seq(n, _ => c)) == c
  {
    SumOfConstant(c, n);
  }

  lemma {:induction false} SumBounds(s: seq<real>, lo: real, hi: real)
    requires forall i :: 0 <= i < |s| ==> lo <= s[i] <= hi
    ensures |s| as real * lo <= Sum(s) <= |s| as real * hi
  {
    if s != [] {
      var n := |s| as real;
      SumBounds(s[..|s| - 1], lo, hi);
      assert (n - 1.0) * lo + lo == n * lo;
      assert (n - 1.0) * hi + hi == n * hi;
    }
  }

  /** The mean of points that all lie between `lo` and `hi` lies between them too. */
  lemma MeanWithinBounds(s: seq<real>, lo: real, hi: real)
    requires |s| > 0
    requires forall i :: 0 <= i < |s| ==> lo <= s[i] <= hi
    ensures lo <= Mean(s) <= hi
  {
    SumBounds(s, lo, hi);
    var n := |s| as real;
    var m := Mean(s);
    assert m * n == Sum(s);
    assert (m - lo) * n == m * n - lo * n;
    assert (hi - m) * n == hi * n - m * n;
    NonNegativeFactor(m - lo, n);
    NonNegativeFactor(hi - m, n);
  }

  /** A product that is not negative, with a positive factor, has a non-negative other factor. */
  lemma NonNegativeFactor(a: real, b: real)
    requires b > 0.0 && a * b >= 0.0
    ensures a >= 0.0
  {
  }

  lemma {:induction false} SumNonNegative(s: seq<real>)
    requires forall i :: 0 <= i < |s| ==> s[i] >= 0.0
    ensures Sum(s) >= 0.0
  {
    if s != [] {
      SumNonNegative(s[..|s| - 1]);
    }
  }

  /** `series.tail(n)`: the last `n` points, or all of them when there are fewer. */
  function Tail<T>(s: seq<T>, n: nat): (t: seq<T>)
    ensures |t| == if |s| <= n then |s| else n
    ensures t == s[|s| - |t|..]
  {
    if |s| <= n then s else s[|s| - n..]
  }

  const HistoryWindow: nat := 120
  const MovingAverageWindow: nat := 5

  /** `historical.loc[now] = live_price` then `historical.tail(120)`: the live price is appended, then only the last 120 points are kept. */
  function WithLivePrice(history: seq<real>, livePrice: real): (h: seq<real>)
    ensures 1 <= |h| <= HistoryWindow
    ensures h[|h| - 1] == livePrice
    ensures h[..|h| - 1] == Tail(history, HistoryWindow - 1)
  {
    Tail(history + [livePrice], HistoryWindow)
  }

  // ---------------------------------------------------------------------------
  // Forecasts
  // ---------------------------------------------------------------------------

  /** Point forecast, interval bounds and spread, one entry per future day. */
  datatype Forecast = Forecast(price: seq<real>, lower: seq<real>, upper: seq<real>, stdDev: seq<real>)

  predicate HasSteps(f: Forecast, steps: nat) {
    |f.price| == steps && |f.lower| == steps && |f.upper| == steps && |f.stdDev| == steps
  }

  /** One fitted model's output: `predicted_mean` and the two columns of `conf_int`. */
  datatype ModelForecast = ModelForecast(mean: seq<real>, lower: seq<real>, upper: seq<real>)

  predicate Shaped(m: ModelForecast, steps: int) {
    |m.mean| == steps && |m.lower| == steps && |m.upper| == steps
  }

  datatype EnsembleFit = EnsembleFit(arima: ModelForecast, sarima: ModelForecast)

  /**
   * `final_fc`, `lower_bound`, `upper_bound` and `forecast_std` of the ensemble: it averages the two models' forecasts and bounds, and its spread is
   * `np.std([arima, sarima], axis=0)`, the population standard deviation of two values, which
   * is half their distance.
   */
  function Ensemble(fit: EnsembleFit, steps: nat): (f: Forecast)
    requires Shaped(fit.arima, steps) && Shaped(fit.sarima, steps)
    ensures HasSteps(f, steps)
    ensures forall i :: 0 <= i < steps ==>
      && f.lower[i] == (fit.arima.lower[i] + fit.sarima.lower[i]) / 2.0
      && f.upper[i] == (fit.arima.upper[i] + fit.sarima.upper[i]) / 2.0
    ensures forall i :: 0 <= i < steps ==>
      && Min(fit.arima.mean[i], fit.sarima.mean[i]) <= f.price[i] <= Max(fit.arima.mean[i], fit.sarima.mean[i])
      && f.price[i] - fit.arima.mean[i] == fit.sarima.mean[i] - f.price[i]
    ensures forall i :: 0 <= i < steps ==>
      var a, s, m := fit.arima.mean[i], fit.sarima.mean[i], f.price[i];
      f.stdDev[i] >= 0.0 && f.stdDev[i] * f.stdDev[i] == ((a - m) * (a - m) + (s - m) * (s - m)) / 2.0
  {
    var a, s := fit.arima, fit.sarima;
    Forecast(
      seq(steps, i requires 0 <= i < steps => (a.mean[i] + s.mean[i]) / 2.0),
      seq(steps, i requires 0 <= i < steps => (a.lower[i] + s.lower[i]) / 2.0),
      seq(steps, i requires 0 <= i < steps => (a.upper[i] + s.upper[i]) / 2.0),
      seq(steps, i requires 0 <= i < steps => Abs(a.mean[i] - s.mean[i]) / 2.0))
  }

  /** When each model's interval contains its forecast, the ensemble's interval contains the ensemble forecast. */
  lemma EnsembleKeepsIntervals(fit: EnsembleFit, steps: nat)
    requires Shaped(fit.arima, steps) && Shaped(fit.sarima, steps)
    requires forall i :: 0 <= i < steps ==> fit.arima.lower[i] <= fit.arima.mean[i] <= fit.arima.upper[i]
    requires forall i :: 0 <= i < steps ==> fit.sarima.lower[i] <= fit.sarima.mean[i] <= fit.sarima.upper[i]
    ensures var f := Ensemble(fit, steps);
      forall i :: 0 <= i < steps ==> f.lower[i] <= f.price[i] <= f.upper[i]
  {
  }

  /** The ensemble's spreads are distances, so their average is never negative. */
  lemma EnsembleSpreadNonNegative(fit: EnsembleFit, steps: nat)
    requires Shaped(fit.arima, steps) && Shaped(fit.sarima, steps)
    requires steps > 0
    ensures Mean(Ensemble(fit, steps).stdDev) >= 0.0
  {
    SumNonNegative(Ensemble(fit, steps).stdDev);
  }

  /** The damped trend line of the fallback: `last + trend * (i + 1)` with `trend = (last - ma) / 10`. */
  function TrendLine(last: real, ma: real, steps: nat): (fc: seq<real>)
    ensures |fc| == steps
    ensures steps > 0 ==> fc[0] - last == (last - ma) / 10.0
    ensures forall i :: 0 <= i < steps - 1 ==> fc[i + 1] - fc[i] == (last - ma) / 10.0
  {
    seq(steps, i requires 0 <= i < steps => last + (last - ma) / 10.0 * (i + 1) as real)
  }

  /** The fallback forecast ends above the last price exactly when the last price is above the average. */
  lemma TrendLineDirection(last: real, ma: real, steps: nat)
    requires steps > 0
    ensures TrendLine(last, ma, steps)[steps - 1] > last <==> last > ma
    ensures TrendLine(last, ma, steps)[steps - 1] < last <==> last < ma
  {
    var trend := (last - ma) / 10.0;
    var k := steps as real;
    assert TrendLine(last, ma, steps)[steps - 1] == last + trend * k;
    assert k >= 1.0;
    if trend > 0.0 { assert trend * k > 0.0; }
    if trend < 0.0 { assert trend * k < 0.0; }
  }

  /** The `except` branch of the model fit: the fallback forecast, its symmetric band of 1.96 standard deviations and constant spread. */
  function Fallback(h: seq<real>, steps: nat, std: real): (f: Forecast)
    requires |h| > 0
    ensures HasSteps(f, steps)
    ensures f.price == TrendLine(h[|h| - 1], Mean(Tail(h, MovingAverageWindow)), steps)
    ensures forall i :: 0 <= i < steps ==>
      f.price[i] - f.lower[i] == f.upper[i] - f.price[i] == 1.96 * std
    ensures std >= 0.0 ==> forall i :: 0 <= i < steps ==> f.lower[i] <= f.price[i] <= f.upper[i]
    ensures forall i :: 0 <= i < steps ==> f.stdDev[i] == std
  {
    var last := h[|h| - 1];
    var ma := Mean(Tail(h, MovingAverageWindow));
    var fc := TrendLine(last, ma, steps);
    Forecast(
      fc,
      seq(steps, i requires 0 <= i < steps => fc[i] - 1.96 * std),
      seq(steps, i requires 0 <= i < steps => fc[i] + 1.96 * std),
      seq(steps, _ => std))
  }

  /**
   * What the fallback promises about a series ending in `last`: the forecast ends above `last`
   * exactly when `last` is above the moving average, and its average spread is the series'
   * standard deviation.
   */
  lemma FallbackForecast(h: seq<real>, steps: nat, std: real)
    requires |h| > 0 && steps > 0
    ensures var f := Fallback(h, steps, std);
      var last, ma := h[|h| - 1], Mean(Tail(h, MovingAverageWindow));
      && (f.price[steps - 1] > last <==> last > ma)
      && Mean(f.stdDev) == std
  {
    var f := Fallback(h, steps, std);
    TrendLineDirection(h[|h| - 1], Mean(Tail(h, MovingAverageWindow)), steps);
    assert f.stdDev == seq(steps, _ => std);
    MeanOfConstant(std, steps);
  }

  // ---------------------------------------------------------------------------
  // Backtest split and future dates
  // ---------------------------------------------------------------------------

  /**
   * `int(n * 0.8)`. The double nearest 0.8 lies just above 0.8 and `n * 0.8` is never within
   * rounding distance below an integer for the at most 120 points used, so this is the floor
   * of 4n/5.
   */
  function TrainSize(n: nat): (k: nat)
    ensures 5 * k <= 4 * n < 5 * (k + 1)
  {
    (4 * n) / 5
  }

  /** `historical[:train_size], historical[train_size:]`: the first 80% of the points train the backtest models, the rest test them. */
  function TrainTestSplit(h: seq<real>): (split: (seq<real>, seq<real>))
    ensures split.0 + split.1 == h
    ensures |split.0| == TrainSize(|h|)
  {
    (h[..TrainSize(|h|)], h[TrainSize(|h|)..])
  }

  /** A series with at least one point always leaves at least one point to test on. */
  lemma TestPartNonEmpty(h: seq<real>)
    requires |h| > 0
    ensures |TrainTestSplit(h).1| > 0
  {
  }

  /** `future_dates`: the `steps` calendar days after `lastDay`, as day numbers. */
  function FutureDays(lastDay: int, steps: nat): (days: seq<int>)
    ensures |days| == steps
    ensures steps > 0 ==> days[0] == lastDay + 1
    ensures forall i :: 0 <= i < steps - 1 ==> days[i + 1] == days[i] + 1
  {
    seq(steps, i requires 0 <= i < steps => lastDay + i + 1)
  }

  // ---------------------------------------------------------------------------
  // Confidence score
  // ---------------------------------------------------------------------------

  /** Penalty for forecast uncertainty: five points per unit of average spread, at most 30. */
  function UncertaintyPenalty(avgUncertainty: real): (p: real)
    ensures p <= 30.0
    ensures avgUncertainty >= 0.0 ==> p >= 0.0
    ensures avgUncertainty * 5.0 <= 30.0 ==> p == avgUncertainty * 5.0
    ensures avgUncertainty * 5.0 >= 30.0 ==> p == 30.0
  {
    Min(avgUncertainty * 5.0, 30.0)
  }

  /** Penalty for volatility: two points per unit, at most 20. */
  function VolatilityPenalty(volatility: real): (p: real)
    ensures p <= 20.0
    ensures volatility >= 0.0 ==> p >= 0.0
    ensures volatility * 2.0 <= 20.0 ==> p == volatility * 2.0
    ensures volatility * 2.0 >= 20.0 ==> p == 20.0
  {
    Min(volatility * 2.0, 20.0)
  }

  /** Penalty for backtest error: half a point per percent of MAPE, at most 30; none without a MAPE. */
  function MapePenalty(metrics: Option<map<string, real>>): (p: real)
    ensures p <= 30.0
    ensures (metrics.None? || "mape" !in metrics.value) ==> p == 0.0
    ensures metrics.Some? && "mape" in metrics.value && metrics.value["mape"] >= 0.0 ==> p >= 0.0
    ensures metrics.Some? && "mape" in metrics.value && metrics.value["mape"] / 2.0 <= 30.0 ==>
      p == metrics.value["mape"] / 2.0
    ensures metrics.Some? && "mape" in metrics.value && metrics.value["mape"] / 2.0 >= 30.0 ==> p == 30.0
  {
    if metrics.Some? && "mape" in metrics.value then Min(metrics.value["mape"] / 2.0, 30.0) else 0.0
  }

  /** `max(0.0, min(100.0, score))` */
  function Clamp(score: real): (c: real)
    ensures 0.0 <= c <= 100.0
    ensures 0.0 <= score <= 100.0 ==> c == score
    ensures score < 0.0 ==> c == 0.0
    ensures score > 100.0 ==> c == 100.0
  {
    Max(0.0, Min(100.0, score))
  }

  /** The score `_calculate_confidence_score` computes, as one expression. */
  function ConfidenceScoreOf(avgUncertainty: real, volatility: real, metrics: Option<map<string, real>>): (c: real)
    ensures 0.0 <= c <= 100.0
  {
    Clamp(100.0 - UncertaintyPenalty(avgUncertainty) - VolatilityPenalty(volatility) - MapePenalty(metrics))
  }

  /**
   * `_calculate_confidence_score`: start from 100 and subtract the three penalties in turn,
   * then clamp to [0, 100].
   */
  method CalculateConfidenceScore(forecastStd: seq<real>, volatility: real, metrics: Option<map<string, real>>)
    returns (score: real)
    requires |forecastStd| > 0
    ensures score == ConfidenceScoreOf(Mean(forecastStd), volatility, metrics)
    ensures 0.0 <= score <= 100.0
  {
    score := 100.0;
    var avgUncertainty := Mean(forecastStd);
    var uncertaintyPenalty := Min(avgUncertainty * 5.0, 30.0);
    score := score - uncertaintyPenalty;
    var volatilityPenalty := Min(volatility * 2.0, 20.0);
    score := score - volatilityPenalty;
    if metrics.Some? && "mape" in metrics.value {
      var mape := metrics.value["mape"];
      var mapePenalty := Min(mape / 2.0, 30.0);
      score := score - mapePenalty;
    }
    score := Max(0.0, Min(100.0, score));
  }

  /** With non-negative inputs the penalties add up to at most 80, so the score never drops below 20. */
  lemma ScoreAtLeastTwenty(avgUncertainty: real, volatility: real, metrics: Option<map<string, real>>)
    requires avgUncertainty >= 0.0 && volatility >= 0.0
    requires metrics.Some? && "mape" in metrics.value ==> metrics.value["mape"] >= 0.0
    ensures 20.0 <= ConfidenceScoreOf(avgUncertainty, volatility, metrics) <= 100.0
  {
  }

  /** No uncertainty, no volatility and no backtest MAPE give full confidence. */
  lemma PerfectScore(metrics: Option<map<string, real>>)
    requires metrics.None? || "mape" !in metrics.value
    ensures ConfidenceScoreOf(0.0, 0.0, metrics) == 100.0
  {
  }

  /** More uncertainty, more volatility or a larger MAPE never raise the score. */
  lemma ScoreIsAntitone(u1: real, u2: real, v1: real, v2: real, mape1: real, mape2: real)
    requires u1 <= u2 && v1 <= v2 && mape1 <= mape2
    ensures ConfidenceScoreOf(u2, v2, Some(map["mape" := mape2]))
         <= ConfidenceScoreOf(u1, v1, Some(map["mape" := mape1]))
    ensures ConfidenceScoreOf(u2, v2, None) <= ConfidenceScoreOf(u1, v1, None)
  {
  }

  // ---------------------------------------------------------------------------
  // `predict_price`
  // ---------------------------------------------------------------------------

  datatype ForecastRow = ForecastRow(day: int, price: real, lower: real, upper: real, stdDev: real)

  datatype Direction = Up | Down

  /** The dictionary `predict_price` returns, without the display-only fields. */
  datatype Prediction = Prediction(
    symbol: string,
    livePrice: real,
    historical: seq<real>,
    forecast: seq<ForecastRow>,
    predictedT1: real,
    predictedT10: real,
    direction: Direction,
    volatility: real,
    confidenceScore: real,
    confidenceLevel: real,
    accuracyMetrics: Option<map<string, real>>)

  /** The `"forecast"` list of the result: one row per future day, pairing the day with the forecast's entries for it. */
  function Rows(days: seq<int>, f: Forecast, steps: nat): (rows: seq<ForecastRow>)
    requires |days| == steps && HasSteps(f, steps)
    ensures |rows| == steps
    ensures forall i :: 0 <= i < steps ==>
      rows[i] == ForecastRow(days[i], f.price[i], f.lower[i], f.upper[i], f.stdDev[i])
  {
    seq(steps, i requires 0 <= i < steps => ForecastRow(days[i], f.price[i], f.lower[i], f.upper[i], f.stdDev[i]))
  }

  /** `final_fc[0]` on an empty forecast raises `IndexError`: a forecast needs at least one step. */
  datatype PriceError = NoForecastSteps

  /**
   * `predict_price`. `history` is what `get_historical` returned, `today` the day number of
   * `pd.Timestamp.now()`, `fit` the ensemble's two model outputs (`None` when fitting or
   * forecasting raised), `seriesStd` the `historical.std()` the fallback uses, and `backtest`
   * the accuracy metrics of the backtest (`None` when it raised).
   */
  method PredictPrice(symbol: string, steps: int, confidenceLevel: real,
                      history: seq<real>, livePrice: real, today: int,
                      fit: Option<EnsembleFit>, seriesStd: real, volatility: real,
                      backtest: Option<map<string, real>>)
    returns (r: Result<Prediction, PriceError>)
    requires fit.Some? ==> Shaped(fit.value.arima, steps) && Shaped(fit.value.sarima, steps)
    ensures r.Err? <==> steps <= 0
    ensures r.Ok? ==>
      var p := r.value;
      && p.symbol == symbol && p.livePrice == livePrice && p.volatility == volatility
      && p.confidenceLevel == confidenceLevel
      && p.historical == WithLivePrice(history, livePrice)
      && |p.forecast| == steps
      && (forall i :: 0 <= i < steps ==> p.forecast[i].day == today + i + 1)
      && p.predictedT1 == p.forecast[0].price
      && p.predictedT10 == p.forecast[steps - 1].price
      && (p.direction == Up <==> p.predictedT10 > livePrice)
      && 0.0 <= p.confidenceScore <= 100.0
      && p.accuracyMetrics == backtest
    ensures r.Ok? ==>
      var forecast := if fit.Some? then Ensemble(fit.value, steps) else Fallback(r.value.historical, steps, seriesStd);
      r.value.forecast == Rows(FutureDays(today, steps), forecast, steps)
    ensures r.Ok? && fit.Some? ==>
      var p := r.value;
      && (forall i :: 0 <= i < steps ==>
            p.forecast[i].price == (fit.value.arima.mean[i] + fit.value.sarima.mean[i]) / 2.0)
      && p.confidenceScore == ConfidenceScoreOf(Mean(Ensemble(fit.value, steps).stdDev), volatility, backtest)
    ensures r.Ok? && fit.None? ==>
      var p := r.value;
      var ma := Mean(Tail(p.historical, MovingAverageWindow));
      && (forall i :: 0 <= i < steps ==> p.forecast[i].price == TrendLine(livePrice, ma, steps)[i])
      && (seriesStd >= 0.0 ==> forall i :: 0 <= i < steps ==> p.forecast[i].lower <= p.forecast[i].price <= p.forecast[i].upper)
      && (p.direction == Up <==> livePrice > ma)
      && p.confidenceScore == ConfidenceScoreOf(seriesStd, volatility, backtest)
  {
    if steps <= 0 {
      return Err(NoForecastSteps);
    }

    // append the live price, keep the last 120 points
    var historical := WithLivePrice(history, livePrice);

    var forecast: Forecast;
    if fit.Some? {
      forecast := Ensemble(fit.value, steps);
    } else {
      forecast := Fallback(historical, steps, seriesStd);
      FallbackForecast(historical, steps, seriesStd);
    }

    // backtest on the last 20%; the test part is never empty here
    var split := TrainTestSplit(historical);
    var accuracyMetrics: Option<map<string, real>>;
    if |split.1| > 0 {
      accuracyMetrics := backtest;
    } else {
      accuracyMetrics := None;
    }

    var days := FutureDays(today, steps);

    var score := CalculateConfidenceScore(forecast.stdDev, volatility, accuracyMetrics);

    var rows := Rows(days, forecast, steps);
    var last := forecast.price[steps - 1];
    var direction := if last > livePrice then Up else Down;
    r := Ok(Prediction(symbol, livePrice, historical, rows, forecast.price[0], last,
                       direction, volatility, score, confidenceLevel, accuracyMetrics));
  }
}
