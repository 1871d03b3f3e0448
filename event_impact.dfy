/**
 * Model of backend/app/services/ml/event_impact_predict.py: predicting the market impact of
 * a news event on a stock. A trained classifier is used when its file is found at one of
 * three candidate paths; otherwise (and, on the command line, also when the classifier
 * fails) a keyword count over 17 bullish and 17 bearish words decides.
 *
 * The file system, the unpickled classifier and its outputs are parameters: `pathExists`
 * stands for `os.path.exists`, and a `ModelRun` is what the loaded classifier answers for
 * the event text (`None` when loading or predicting raised).
 */
module EventImpact {
  import opened Wrappers
  import opened Text
  import opened Numeric

  const PositiveWords: seq<string> := [
    "beat", "profit", "growth", "gain", "rise", "surge", "success",
    "expand", "revenue", "bullish", "upgrade", "acquisition", "breakthrough",
    "innovation", "increase", "rally", "exceed"
  ]
  const NegativeWords: seq<string> := [
    "loss", "decline", "miss", "fall", "drop", "layoff", "scandal",
    "crisis", "lawsuit", "downgrade", "bankruptcy", "fraud", "recall",
    "investigation", "deficit", "bearish", "collapse"
  ]

  // ---------------------------------------------------------------------------
  // Keyword analysis
  // ---------------------------------------------------------------------------

  /** `simple_sentiment_analysis`: (bullish keywords found, bearish keywords found). */
  function SimpleSentimentAnalysis(eventText: string): (counts: (nat, nat))
    ensures counts.0 <= 17 && counts.1 <= 17
  {
    var lower := ToLower(eventText);
    (CountMatches(PositiveWords, lower), CountMatches(NegativeWords, lower))
  }

  /** Each count is the number of distinct keywords of its list found in the lower-cased text. */
  lemma CountsAreDistinctKeywords(eventText: string)
    ensures SimpleSentimentAnalysis(eventText).0 == |MatchSet(PositiveWords, ToLower(eventText))|
    ensures SimpleSentimentAnalysis(eventText).1 == |MatchSet(NegativeWords, ToLower(eventText))|
  {
    assert Distinct(PositiveWords);
    assert Distinct(NegativeWords);
    CountIsDistinctMatches(PositiveWords, ToLower(eventText));
    CountIsDistinctMatches(NegativeWords, ToLower(eventText));
  }

  /** The analysis ignores ASCII case. */
  lemma AnalysisIsCaseInsensitive(eventText: string)
    ensures SimpleSentimentAnalysis(ToLower(eventText)) == SimpleSentimentAnalysis(eventText)
  {
    ToLowerIdempotent(eventText);
  }

  /**
   * Matching is by substring, not by word: any text that mentions "Enterprise", whatever
   * surrounds it, counts the bullish keyword "rise" hidden inside it.
   */
  lemma RiseMatchesInsideEnterprise(before: string, after: string)
    ensures Contains(ToLower(before + "Enterprise" + after), "rise")
    ensures SimpleSentimentAnalysis(before + "Enterprise" + after).0 >= 1
  {
    var t := before + "Enterprise" + after;
    var lower := ToLower(t);
    var k := |before| + 6;
    forall j | 0 <= j < 4 ensures lower[k + j] == "rise"[j] {
      assert t[k + j] == "Enterprise"[6 + j];
    }
    assert lower[k..k + 4] == "rise";
    assert OccursAt(lower, "rise", k);
    ContainsIff(lower, "rise");
    assert "rise" in PositiveWords;
    assert "rise" in Matching(PositiveWords, lower);
  }

  // ---------------------------------------------------------------------------
  // Sentiments, confidence levels and impact texts
  // ---------------------------------------------------------------------------

  datatype EventSentiment = Positive | Negative | Neutral

  /** `sentiment.title()` */
  function SentimentTitle(s: EventSentiment): string {
    match s
    case Positive => "Positive"
    case Negative => "Negative"
    case Neutral => "Neutral"
  }

  /** `int(prediction)` mapped to a sentiment: label 1 is positive, every other label negative. */
  function LabelSentiment(predicted: int): (s: EventSentiment)
    ensures s != Neutral
    ensures s == Positive <==> predicted == 1
  {
    if predicted == 1 then Positive else Negative
  }

  datatype ConfidenceLevel = High | Moderate | Low

  function LevelName(l: ConfidenceLevel): string {
    match l
    case High => "High"
    case Moderate => "Moderate"
    case Low => "Low"
  }

  function LevelRank(l: ConfidenceLevel): nat {
    match l
    case Low => 0
    case Moderate => 1
    case High => 2
  }

  /** The confidence bands of the command-line path: at least 0.75, at least 0.6, below 0.6. */
  function LevelOf(confidence: real): (l: ConfidenceLevel)
    ensures l == High <==> confidence >= 0.75
    ensures l == Moderate <==> 0.6 <= confidence < 0.75
    ensures l == Low <==> confidence < 0.6
  {
    if confidence >= 0.75 then High
    else if confidence >= 0.6 then Moderate
    else Low
  }

  /** A higher confidence never gets a lower band. */
  lemma LevelIsMonotone(c1: real, c2: real)
    requires c1 <= c2
    ensures LevelRank(LevelOf(c1)) <= LevelRank(LevelOf(c2))
  {
  }

  /** Three-way verdict of the command-line fallback: ties are neutral. */
  function KeywordSentiment(pos: nat, neg: nat): (s: EventSentiment)
    ensures s == Positive <==> pos > neg
    ensures s == Negative <==> neg > pos
    ensures s == Neutral <==> pos == neg
  {
    if pos > neg then Positive
    else if neg > pos then Negative
    else Neutral
  }

  /**
   * Confidence of the command-line fallback: `min(0.65 + 0.05 * count, 0.90)` for the winning
   * count, 0.55 on a tie.
   */
  function KeywordConfidence(pos: nat, neg: nat): (c: real)
    ensures pos == neg ==> c == 0.55
    ensures pos != neg ==> 0.70 <= c <= 0.90
    ensures pos > neg ==> c == Min(0.65 + 0.05 * pos as real, 0.90)
    ensures neg > pos ==> c == Min(0.65 + 0.05 * neg as real, 0.90)
  {
    if pos > neg then Min(0.65 + pos as real * 0.05, 0.90)
    else if neg > pos then Min(0.65 + neg as real * 0.05, 0.90)
    else 0.55
  }

  /**
   * For either winner, the fallback confidence grows with the winning count and saturates at
   * 0.90 from five keywords on.
   */
  lemma KeywordConfidenceGrowth(pos: nat, neg: nat)
    requires pos != neg
    ensures (if pos > neg then pos else neg) >= 5 ==> KeywordConfidence(pos, neg) == 0.90
    ensures pos > neg && pos < 5 ==> KeywordConfidence(pos, neg) < KeywordConfidence(pos + 1, neg)
    ensures neg > pos && neg < 5 ==> KeywordConfidence(pos, neg) < KeywordConfidence(pos, neg + 1)
  {
  }

  /**
   * The impact text of the command-line fallback: the same shape as the classifier's, with
   * the keyword verdict and a Moderate level, or Low on a tie.
   */
  function KeywordImpact(pos: nat, neg: nat): (impact: string)
    ensures impact == MlImpact(KeywordSentiment(pos, neg), if pos == neg then Low else Moderate)
  {
    PositiveImpactText();
    NegativeImpactText();
    NeutralImpactText();
    if pos > neg then "Positive Impact - Moderate Confidence"
    else if neg > pos then "Negative Impact - Moderate Confidence"
    else "Neutral Impact - Low Confidence"
  }

  /** The literal impact texts of the fallback, spelled through the classifier's format. */
  lemma PositiveImpactText()
    ensures MlImpact(Positive, Moderate) == "Positive Impact - Moderate Confidence"
  {
  }

  lemma NegativeImpactText()
    ensures MlImpact(Negative, Moderate) == "Negative Impact - Moderate Confidence"
  {
  }

  lemma NeutralImpactText()
    ensures MlImpact(Neutral, Low) == "Neutral Impact - Low Confidence"
  {
  }

  /** `f"{impact_direction} Impact - {confidence_level} Confidence"`. */
  function MlImpact(s: EventSentiment, l: ConfidenceLevel): (impact: string)
  {
    SentimentTitle(s) + " Impact - " + LevelName(l) + " Confidence"
  }

  /** The impact text names both the sentiment and the confidence level unambiguously. */
  lemma MlImpactEqualIff(s1: EventSentiment, l1: ConfidenceLevel, s2: EventSentiment, l2: ConfidenceLevel)
    ensures MlImpact(s1, l1) == MlImpact(s2, l2) <==> s1 == s2 && l1 == l2
  {
    var m1, m2 := MlImpact(s1, l1), MlImpact(s2, l2);
    assert m1[0] == SentimentTitle(s1)[0] && m1[2] == SentimentTitle(s1)[2];
    assert m2[0] == SentimentTitle(s2)[0] && m2[2] == SentimentTitle(s2)[2];
  }

  /** Two-way verdict of the `predict_event` fallback: ties count as negative. */
  function ApiKeywordSentiment(pos: nat, neg: nat): (s: EventSentiment)
    ensures s != Neutral
    ensures s == Positive <==> pos > neg
  {
    if pos > neg then Positive else Negative
  }

  /** The two fallbacks agree except on a tie, where the command line says neutral and the API negative. */
  lemma FallbacksDifferOnlyOnTies(pos: nat, neg: nat)
    ensures pos != neg ==> ApiKeywordSentiment(pos, neg) == KeywordSentiment(pos, neg)
    ensures pos == neg ==> ApiKeywordSentiment(pos, neg) == Negative && KeywordSentiment(pos, neg) == Neutral
  {
  }

  // ---------------------------------------------------------------------------
  // The classifier's confidence (`predict_with_model`)
  // ---------------------------------------------------------------------------

  /**
   * What the loaded classifier offers for the event text: the class probabilities when it
   * has `predict_proba`, the decision value when it has `decision_function`.
   */
  datatype Capabilities = Capabilities(proba: Option<seq<real>>, decision: Option<real>)

  /** The classifier's answer: the predicted label (after `int(...)`) and its capabilities. */
  datatype ModelRun = ModelRun(predicted: int, capabilities: Capabilities)

  /** Python's `max` over a non-empty list. */
  function MaxOf(s: seq<real>): (m: real)
    requires |s| > 0
    ensures m in s
    ensures forall x :: x in s ==> x <= m
  {
    if |s| == 1 then s[0]
    else
      var rest := MaxOf(s[1..]);
      assert forall x :: x in s ==> x == s[0] || x in s[1..];
      if s[0] >= rest then s[0] else rest
  }

  /**
   * The confidence `predict_with_model` reports: the largest class probability if the
   * classifier has `predict_proba` (`None` for an empty probability list, where `max`
   * raises), else `1 / (1 + |d|)` for the decision value `d`, else the default 0.75.
   */
  function ModelConfidence(caps: Capabilities): (c: Option<real>)
    ensures caps.proba.Some? ==> (c.Some? <==> caps.proba.value != [])
    ensures caps.proba.Some? && c.Some? ==>
      c.value in caps.proba.value && forall p :: p in caps.proba.value ==> p <= c.value
    ensures caps.proba.None? && caps.decision.Some? ==>
      c.Some? && 0.0 < c.value <= 1.0 && c.value * (1.0 + Abs(caps.decision.value)) == 1.0
    ensures caps.proba.None? && caps.decision.None? ==> c == Some(0.75)
  {
    match caps.proba
    case Some(p) => if p == [] then None else Some(MaxOf(p))
    case None =>
      match caps.decision
      case Some(d) => Some(DecisionConfidence(d))
      case None => Some(0.75)
  }

  /** `1 / (1 + abs(decision))`: a score in (0, 1] that shrinks as the decision value moves away from 0. */
  function DecisionConfidence(d: real): (c: real)
    ensures 0.0 < c <= 1.0 && c * (1.0 + Abs(d)) == 1.0
  {
    var denominator := 1.0 + Abs(d);
    assert denominator >= 1.0;
    1.0 / denominator
  }

  /** With probabilities between 0 and 1, the reported confidence is a probability too. */
  lemma ProbabilityConfidenceInUnitRange(caps: Capabilities)
    requires caps.proba.Some? && caps.proba.value != []
    requires forall p :: p in caps.proba.value ==> 0.0 <= p <= 1.0
    ensures ModelConfidence(caps).Some? && 0.0 <= ModelConfidence(caps).value <= 1.0
  {
  }

  // ---------------------------------------------------------------------------
  // Finding the classifier file
  // ---------------------------------------------------------------------------

  /** `os.path.join(a, b)` for a relative `b`: one separator between the parts. */
  function PathJoin(a: string, b: string): (path: string)
    ensures |path| >= |a| + |b| && path[..|a|] == a && path[|path| - |b|..] == b
    ensures a != [] ==> path[|path| - |b| - 1] == '/'
    ensures |path| == |a| + |b| + (if a == [] || a[|a| - 1] == '/' then 0 else 1)
  {
    if a == [] || a[|a| - 1] == '/' then a + b else a + "/" + b
  }

  /** The three places the classifier file is looked for, relative to the script's directory. */
  function CandidatePaths(scriptDir: string): (paths: seq<string>)
    ensures |paths| == 3
  {
    [
      PathJoin(PathJoin(scriptDir, "models"), "event_impact_model.pkl"),
      PathJoin(PathJoin(PathJoin(PathJoin(scriptDir, ".."), ".."), "models"), "event_impact_model.pkl"),
      PathJoin(PathJoin(PathJoin(PathJoin(PathJoin(scriptDir, ".."), ".."), ".."), "models"), "event_impact_model.pkl")
    ]
  }

  /** Position of the first path that exists, `|paths|` when none does. */
  function FirstExistingIndex(paths: seq<string>, pathExists: string -> bool): (k: nat)
    ensures k <= |paths|
    ensures forall j :: 0 <= j < k ==> !pathExists(paths[j])
    ensures k < |paths| ==> pathExists(paths[k])
  {
    if paths == [] || pathExists(paths[0]) then 0
    else 1 + FirstExistingIndex(paths[1..], pathExists)
  }

  /** `next((p for p in paths if os.path.exists(p)), None)`: the first path that exists. */
  function FirstExisting(paths: seq<string>, pathExists: string -> bool): (r: Option<string>)
    ensures r.None? <==> forall i :: 0 <= i < |paths| ==> !pathExists(paths[i])
    ensures r.Some? ==>
      exists i :: 0 <= i < |paths| && paths[i] == r.value && pathExists(r.value)
               && forall j :: 0 <= j < i ==> !pathExists(paths[j])
  {
    var k := FirstExistingIndex(paths, pathExists);
    if k < |paths| then Some(paths[k]) else None
  }

  /** The `for path in possible_paths: if os.path.exists(path): ... break` loop of `main`. */
  method SelectModelPath(paths: seq<string>, pathExists: string -> bool) returns (modelPath: Option<string>)
    ensures modelPath == FirstExisting(paths, pathExists)
  {
    modelPath := None;
    var i := 0;
    while i < |paths|
      invariant 0 <= i <= |paths|
      invariant modelPath.None?
      invariant forall j :: 0 <= j < i ==> !pathExists(paths[j])
    {
      if pathExists(paths[i]) {
        modelPath := Some(paths[i]);
        break;
      }
      i := i + 1;
    }
  }

  // ---------------------------------------------------------------------------
  // `predict_event`: the API entry point
  // ---------------------------------------------------------------------------

  datatype EventResult =
    | EventError(stock: string, event: string)
    | EventPrediction(stock: string, event: string, impact: string, sentiment: EventSentiment,
                      confidence: real, modelLoaded: bool)

  /**
   * `predict_event` (and `predict_event_impact`, which only calls it). A classifier that
   * fails to load or predict makes the whole call an error result; there is no keyword
   * fallback in that case.
   */
  function PredictEvent(stock: string, eventText: string, scriptDir: string,
                        pathExists: string -> bool, model: Option<ModelRun>): (r: EventResult)
    ensures r.stock == stock && r.event == eventText
    ensures r.EventError? <==>
      FirstExisting(CandidatePaths(scriptDir), pathExists).Some?
      && (model.None? || ModelConfidence(model.value.capabilities).None?)
    ensures r.EventPrediction? ==> r.sentiment != Neutral
    ensures r.EventPrediction? ==>
      (r.modelLoaded <==> FirstExisting(CandidatePaths(scriptDir), pathExists).Some?)
    ensures r.EventPrediction? ==>
      r.impact == SentimentTitle(r.sentiment) + (if r.modelLoaded then " Impact" else " Impact (Keyword-based)")
    ensures r.EventPrediction? && r.modelLoaded ==>
      model.Some? && r.sentiment == LabelSentiment(model.value.predicted)
      && Some(r.confidence) == ModelConfidence(model.value.capabilities)
    ensures r.EventPrediction? && !r.modelLoaded ==>
      var (pos, neg) := SimpleSentimentAnalysis(eventText);
      && (r.sentiment == Positive <==> pos > neg)
      && r.confidence == 0.6
  {
    match FirstExisting(CandidatePaths(scriptDir), pathExists)
    case Some(_) =>
      (match model
       case Some(run) =>
         (match ModelConfidence(run.capabilities)
          case Some(confidence) =>
            var sentiment := LabelSentiment(run.predicted);
            EventPrediction(stock, eventText, SentimentTitle(sentiment) + " Impact", sentiment, confidence, true)
          case None => EventError(stock, eventText))
       case None => EventError(stock, eventText))
    case None =>
      var (pos, neg) := SimpleSentimentAnalysis(eventText);
      var sentiment := ApiKeywordSentiment(pos, neg);
      EventPrediction(stock, eventText, SentimentTitle(sentiment) + " Impact (Keyword-based)", sentiment, 0.6, false)
  }

  // ---------------------------------------------------------------------------
  // `main`: the command-line entry point
  // ---------------------------------------------------------------------------

  /**
   * Why `main` rejects its input: "Insufficient arguments", "Stock and event are required",
   * "Event description too short (minimum 10 characters only)".
   */
  datatype CliError = InsufficientArguments | MissingStockOrEvent | EventTooShort

  /** The `method` field: "ML model prediction" or "keyword-based (fallback)". */
  datatype PredictionMethod = MlModelPrediction | KeywordFallback

  /** The JSON object `main` prints: `ok: False` with an error, or `ok: True` with the prediction. */
  datatype CliOutput =
    | Rejected(error: CliError)
    | Report(stock: string, event: string, impact: string, confidence: real,
             sentiment: EventSentiment, positiveIndicators: nat, negativeIndicators: nat,
             how: PredictionMethod, modelLoaded: bool)

  /** The classifier's verdict when its file exists and loading and predicting succeed. */
  function MlVerdict(paths: seq<string>, pathExists: string -> bool, model: Option<ModelRun>)
    : Option<(EventSentiment, real)>
  {
    if FirstExisting(paths, pathExists).Some? && model.Some?
       && ModelConfidence(model.value.capabilities).Some?
    then Some((LabelSentiment(model.value.predicted), ModelConfidence(model.value.capabilities).value))
    else None
  }

  /**
   * `main`, with `args` the user's arguments (`sys.argv[1:]`). Inputs are validated before
   * anything else; a classifier that cannot be used makes `main` fall back to keywords.
   */
  method RunCli(args: seq<string>, scriptDir: string, pathExists: string -> bool,
                model: Option<ModelRun>) returns (out: CliOutput)
    ensures |args| < 2 ==> out == Rejected(InsufficientArguments)
    ensures |args| >= 2 && (Strip(args[0]) == [] || Strip(args[1]) == []) ==>
      out == Rejected(MissingStockOrEvent)
    ensures |args| >= 2 && Strip(args[0]) != [] && 0 < |Strip(args[1])| < 10 ==>
      out == Rejected(EventTooShort)
    ensures out.Report? <==> |args| >= 2 && Strip(args[0]) != [] && |Strip(args[1])| >= 10
    ensures out.Report? ==>
      && out.stock == ToUpper(Strip(args[0])) && out.stock != []
      && out.event == Strip(args[1])
      && (out.positiveIndicators, out.negativeIndicators) == SimpleSentimentAnalysis(out.event)
      && (out.modelLoaded <==> MlVerdict(CandidatePaths(scriptDir), pathExists, model).Some?)
      && (out.how == MlModelPrediction <==> out.modelLoaded)
    ensures out.Report? && out.modelLoaded ==>
      var (sentiment, confidence) := MlVerdict(CandidatePaths(scriptDir), pathExists, model).value;
      && out.sentiment == sentiment && out.confidence == confidence
      && out.impact == MlImpact(sentiment, LevelOf(confidence))
    ensures out.Report? && !out.modelLoaded ==>
      && out.sentiment == KeywordSentiment(out.positiveIndicators, out.negativeIndicators)
      && out.confidence == KeywordConfidence(out.positiveIndicators, out.negativeIndicators)
      && out.impact == KeywordImpact(out.positiveIndicators, out.negativeIndicators)
  {
    if |args| < 2 {
      return Rejected(InsufficientArguments);
    }
    var stock := ToUpper(Strip(args[0]));
    var eventText := Strip(args[1]);
    if stock == [] || eventText == [] {
      return Rejected(MissingStockOrEvent);
    }
    if |eventText| < 10 {
      return Rejected(EventTooShort);
    }

    var modelPath := SelectModelPath(CandidatePaths(scriptDir), pathExists);
    var useMlModel := modelPath.Some?;
    var impact: string, sentiment: EventSentiment, confidence: real;
    if useMlModel {
      var conf := if model.Some? then ModelConfidence(model.value.capabilities) else None;
      if conf.Some? {
        sentiment := LabelSentiment(model.value.predicted);
        confidence := conf.value;
        impact := MlImpact(sentiment, LevelOf(confidence));
      } else {
        // loading or predicting raised: fall back to keywords
        useMlModel := false;
      }
    }
    var (pos, neg) := SimpleSentimentAnalysis(eventText);
    if !useMlModel {
      sentiment := KeywordSentiment(pos, neg);
      confidence := KeywordConfidence(pos, neg);
      impact := KeywordImpact(pos, neg);
    }
    var how := if useMlModel then MlModelPrediction else KeywordFallback;
    out := Report(stock, eventText, impact, confidence, sentiment, pos, neg, how, useMlModel);
  }
}
