/**
 * Model of backend/app/services/ml/risk_predictor.py: two pre-trained regressors turn a
 * dictionary of seven market features into a risk score and a SELL/HOLD/BUY action, and a
 * small rule engine explains the pair in two sentences.
 *
 * The joblib-loaded models are parameters: `riskModel` and `actionModel` stand for
 * `risk_model.predict(x)[0]` and `int(action_model.predict(x)[0])` on the preprocessed row.
 */
module RiskPredictor {
  import opened Wrappers

  /** The seven features, in the order the models were trained on. */
  const Features: seq<string> := ["close", "ret", "vol5", "sma5", "sma15", "above_sma15", "mom5"]

  /**
   * `preprocess`: a 1 x 7 matrix holding the features in `Features` order; `None` when a
   * feature is missing (the dictionary lookup raises `KeyError`).
   */
  function Preprocess(data: map<string, real>): (x: Option<seq<seq<real>>>)
    ensures x.Some? <==> forall i :: 0 <= i < |Features| ==> Features[i] in data
    ensures x.Some? ==>
      |x.value| == 1 && |x.value[0]| == 7
      && forall i :: 0 <= i < 7 ==> x.value[0][i] == data[Features[i]]
  {
    if forall i :: 0 <= i < |Features| ==> Features[i] in data
    then Some([[data[Features[0]], data[Features[1]], data[Features[2]], data[Features[3]],
                data[Features[4]], data[Features[5]], data[Features[6]]]])
    else None
  }

  /** The row depends only on the seven features: other keys of the dictionary are ignored. */
  lemma PreprocessIgnoresOtherKeys(d1: map<string, real>, d2: map<string, real>)
    requires forall f :: f in Features ==> (f in d1 <==> f in d2)
    requires forall f :: f in Features && f in d1 ==> d1[f] == d2[f]
    ensures Preprocess(d1) == Preprocess(d2)
  {
    assert forall i :: 0 <= i < |Features| ==> Features[i] in Features;
    if Preprocess(d1).Some? {
      assert Preprocess(d1).value[0] == Preprocess(d2).value[0];
    }
  }

  datatype Action = Sell | Hold | Buy

  /** `ACTION_MAP[label]`. */
  function ActionName(a: Action): string {
    match a
    case Sell => "SELL"
    case Hold => "HOLD"
    case Buy => "BUY"
  }

  /** The label the action model uses for each action: the keys of `ACTION_MAP`. */
  function ActionLabel(a: Action): int {
    match a
    case Sell => 0
    case Hold => 1
    case Buy => 2
  }

  /** `ACTION_MAP[label]` as a decoder: `None` for a label outside 0..2 (`KeyError`). */
  function DecodeAction(predicted: int): (a: Option<Action>)
    ensures a.Some? <==> 0 <= predicted <= 2
    ensures a.Some? ==> ActionLabel(a.value) == predicted
  {
    if predicted == 0 then Some(Sell)
    else if predicted == 1 then Some(Hold)
    else if predicted == 2 then Some(Buy)
    else None
  }

  /** Decoding inverts the label assignment. */
  lemma DecodeActionLabel(a: Action)
    ensures DecodeAction(ActionLabel(a)) == Some(a)
  {
  }

  function PredictRisk(data: map<string, real>, riskModel: seq<seq<real>> -> real): (r: Option<real>)
    ensures r.Some? <==> Preprocess(data).Some?
    ensures r.Some? ==> r.value == riskModel(Preprocess(data).value)
  {
    match Preprocess(data)
    case Some(x) => Some(riskModel(x))
    case None => None
  }

  /** `predict_action`: the decoded label of the action model; only SELL, HOLD or BUY can come out. */
  function PredictAction(data: map<string, real>, actionModel: seq<seq<real>> -> int): (a: Option<Action>)
    ensures a.Some? <==> Preprocess(data).Some? && 0 <= actionModel(Preprocess(data).value) <= 2
    ensures a.Some? ==> ActionLabel(a.value) == actionModel(Preprocess(data).value)
    ensures a.Some? ==> ActionName(a.value) in {"SELL", "HOLD", "BUY"}
  {
    match Preprocess(data)
    case Some(x) => DecodeAction(actionModel(x))
    case None => None
  }

  // ---------------------------------------------------------------------------
  // Explanation engine
  // ---------------------------------------------------------------------------

  datatype RiskBand = LowRisk | ModerateRisk | HighRisk

  /** The three risk bands: below 20, from 20 to below 50, and 50 or more. */
  function BandOf(risk: real): (b: RiskBand)
    ensures b == LowRisk <==> risk < 20.0
    ensures b == ModerateRisk <==> 20.0 <= risk < 50.0
    ensures b == HighRisk <==> risk >= 50.0
  {
    if risk < 20.0 then LowRisk
    else if risk < 50.0 then ModerateRisk
    else HighRisk
  }

  const LowRiskSentence: string := "Risk is low due to stable price movement. "
  const ModerateRiskSentence: string := "Moderate risk from mild volatility. "
  const HighRiskSentence: string := "High risk detected from strong downside movement. "

  function RiskSentence(b: RiskBand): string {
    match b
    case LowRisk => LowRiskSentence
    case ModerateRisk => ModerateRiskSentence
    case HighRisk => HighRiskSentence
  }

  /** Which of the three action sentences applies: BUY, HOLD, or anything else. */
  datatype Stance = Momentum | Balanced | SellingPressure

  function StanceOf(action: string): (s: Stance)
    ensures s == Momentum <==> action == "BUY"
    ensures s == Balanced <==> action == "HOLD"
    ensures s == SellingPressure <==> action != "BUY" && action != "HOLD"
  {
    if action == "BUY" then Momentum
    else if action == "HOLD" then Balanced
    else SellingPressure
  }

  const MomentumSentence: string := "Market momentum looks positive."
  const BalancedSentence: string := "Momentum and volatility are balanced."
  const SellingPressureSentence: string := "Negative trends suggest selling pressure."

  function StanceSentence(s: Stance): string {
    match s
    case Momentum => MomentumSentence
    case Balanced => BalancedSentence
    case SellingPressure => SellingPressureSentence
  }

  /** The explanation: the risk sentence followed by the action sentence, nothing else. */
  function Explanation(risk: real, action: string): (e: string)
    ensures |e| >= |RiskSentence(BandOf(risk))|
    ensures e[..|RiskSentence(BandOf(risk))|] == RiskSentence(BandOf(risk))
    ensures e[|RiskSentence(BandOf(risk))|..] == StanceSentence(StanceOf(action))
  {
    RiskSentence(BandOf(risk)) + StanceSentence(StanceOf(action))
  }

  /**
   * `generate_explanation`, which builds `msg` by appending one sentence per rule. The
   * feature dictionary `f` is accepted and never read: the result depends on risk and
   * action only.
   */
  method GenerateExplanation(risk: real, action: string, f: map<string, real>) returns (msg: string)
    ensures msg == Explanation(risk, action)
  {
    msg := "";
    if risk < 20.0 {
      msg := msg + "Risk is low due to stable price movement. ";
    } else if risk < 50.0 {
      msg := msg + "Moderate risk from mild volatility. ";
    } else {
      msg := msg + "High risk detected from strong downside movement. ";
    }
    assert msg == RiskSentence(BandOf(risk));
    if action == "BUY" {
      msg := msg + "Market momentum looks positive.";
    } else if action == "HOLD" {
      msg := msg + "Momentum and volatility are balanced.";
    } else {
      msg := msg + "Negative trends suggest selling pressure.";
    }
  }

  lemma SentenceFacts()
    ensures |LowRiskSentence| == 42 && |ModerateRiskSentence| == 36 && |HighRiskSentence| == 50
    ensures |MomentumSentence| == 31 && |BalancedSentence| == 37 && |SellingPressureSentence| == 41
    ensures LowRiskSentence[0] == 'R' && ModerateRiskSentence[0] == 'M'
  {
  }

  /**
   * Different risk bands or different action sentences never give the same explanation, so
   * the explanation tells which rule of each kind fired.
   */
  lemma ExplanationsEqualIff(r1: real, a1: string, r2: real, a2: string)
    ensures Explanation(r1, a1) == Explanation(r2, a2) <==>
      BandOf(r1) == BandOf(r2) && StanceOf(a1) == StanceOf(a2)
  {
    var b1, s1, b2, s2 := BandOf(r1), StanceOf(a1), BandOf(r2), StanceOf(a2);
    var m1, m2 := Explanation(r1, a1), Explanation(r2, a2);
    SentenceFacts();
    assert m1[0] == RiskSentence(b1)[0] && m2[0] == RiskSentence(b2)[0];
    assert m1[|RiskSentence(b1)|..] == StanceSentence(s1);
    assert m2[|RiskSentence(b2)|..] == StanceSentence(s2);
  }

  /** What `predict_full` returns. */
  datatype FullPrediction = FullPrediction(riskScore: real, action: Action, explanation: string)

  /** `predict_full`: risk, action and their explanation; `None` when a step raises. */
  function PredictFull(data: map<string, real>, riskModel: seq<seq<real>> -> real,
                       actionModel: seq<seq<real>> -> int): (r: Option<FullPrediction>)
    ensures r.Some? <==> PredictRisk(data, riskModel).Some? && PredictAction(data, actionModel).Some?
    ensures r.Some? ==>
      && r.value.riskScore == PredictRisk(data, riskModel).value
      && r.value.action == PredictAction(data, actionModel).value
      && r.value.explanation == Explanation(r.value.riskScore, ActionName(r.value.action))
  {
    match (PredictRisk(data, riskModel), PredictAction(data, actionModel))
    case (Some(risk), Some(action)) =>
      Some(FullPrediction(risk, action, Explanation(risk, ActionName(action))))
    case _ => None
  }

  /** In a full prediction, the action sentence is never the fallback one unless the action is SELL. */
  lemma FullPredictionStance(a: Action)
    ensures StanceOf(ActionName(a)) == SellingPressure <==> a == Sell
  {
  }
}
