/** The `/detect_fraud` endpoint: the ensemble's fraud and anomaly
    percentages, the compliance percentage from the language model (a
    uniform draw in [20, 80] when none comes back), their average and its
    risk class; any exception becomes an HTTP 500 carrying its message. */
module DetectFraud {
  import opened Values
  import opened RandomDraws
  import ComplianceScore
  import Ensemble
  import Numbers

  // ---------------------------------------------------------------------
  // Risk classes
  // ---------------------------------------------------------------------

  datatype RiskClass = Low | Medium | High

  /** The label the response carries. */
  function RiskLabel(c: RiskClass): string {
    match c
    case Low => "Low"
    case Medium => "Medium"
    case High => "High"
  }

  /** `classify_risk` on a score in percent: each class is exactly its band
      of scores, below 33, from 33 to below 66, and 66 or more. */
  function ClassifyRisk(score: real): (c: RiskClass)
    ensures c == Low <==> score < 33.0
    ensures c == Medium <==> 33.0 <= score < 66.0
    ensures c == High <==> 66.0 <= score
  {
    if score < 33.0 then Low else if score < 66.0 then Medium else High
  }

  function Rank(c: RiskClass): nat {
    match c
    case Low => 0
    case Medium => 1
    case High => 2
  }

  /** A higher score never gets a lower class. */
  lemma ClassifyMonotone(a: real, b: real)
    requires a <= b
    ensures Rank(ClassifyRisk(a)) <= Rank(ClassifyRisk(b))
  {
  }

  /** The three labels are distinct, so the label determines the class. */
  lemma LabelsDistinct(c: RiskClass, d: RiskClass)
    ensures RiskLabel(c) == RiskLabel(d) <==> c == d
  {
    assert RiskLabel(Low)[0] == 'L' && RiskLabel(Medium)[0] == 'M' && RiskLabel(High)[0] == 'H';
  }

  // ---------------------------------------------------------------------
  // The endpoint
  // ---------------------------------------------------------------------

  /** What the compliance request does: answer with a status and, for 200,
      the reply's message content; or raise (the request, its JSON or the
      preprocessing failed). */
  datatype ComplianceReply = Reply(status: int, content: string) | RequestRaised

  /** The endpoint's answer: the five-field body, or the HTTP error. */
  datatype Response =
    | Scored(fraudPercent: real, compliancePercent: real, behaviorAnomalyPercent: real,
             overallRisk: real, riskClass: RiskClass)
    | ServerError(status: int, detail: string)

  const NoModelsMessage: string := "\U{274C} No models found! Please check the models directory."
  const ZeroWeightMessage: string := "\U{274C} Total weight is zero, invalid ensemble."

  /** The average of the three percentages. */
  function OverallRisk(fraud: real, compliance: real, anomaly: real): (r: real)
    ensures 3.0 * r == fraud + compliance + anomaly
    ensures fraud == compliance == anomaly ==> r == fraud
  {
    (fraud + compliance + anomaly) / 3.0
  }

  /** The compliance percentage used: the model's score, else the draw. */
  function CompliancePercent(status: int, content: string, fallback: real): (c: real)
    requires IsDraw(fallback)
    ensures ComplianceScore.ComplianceRisk(status, content).Some? ==> c == ComplianceScore.ComplianceRisk(status, content).value
    ensures ComplianceScore.ComplianceRisk(status, content).None? ==> 20.0 <= c <= 80.0
  {
    var score := ComplianceScore.ComplianceRisk(status, content);
    if score.Some? then score.value else Uniform(fallback, 20.0, 80.0)
  }

  /** `detect_fraud`, given how the ensemble's `predict` ended, how the
      compliance request went, the fallback's draw and the message of the
      exception raised otherwise (a request error, or the TypeError of
      adding the "N/A" anomaly). */
  function DetectFraud(ensemble: Ensemble.Prediction, reply: ComplianceReply, fallback: real, errorText: string)
    : (r: Response)
    requires IsDraw(fallback)
    ensures r.ServerError? ==> r.status == 500
    ensures ensemble.NoModels? ==> r == ServerError(500, NoModelsMessage)
    ensures ensemble.ZeroWeight? ==> r == ServerError(500, ZeroWeightMessage)
    ensures ensemble.Predicted? && (reply.RequestRaised? || ensemble.anomaly.None?) ==> r == ServerError(500, errorText)
  {
    match ensemble
    case NoModels => ServerError(500, NoModelsMessage)
    case ZeroWeight => ServerError(500, ZeroWeightMessage)
    case Predicted(fraud, anomaly) =>
      if reply.RequestRaised? then ServerError(500, errorText)
      else
        var compliance := CompliancePercent(reply.status, reply.content, fallback);
        if anomaly.None? then ServerError(500, errorText)
        else
          var overall := OverallRisk(fraud, compliance, anomaly.value);
          Scored(fraud, compliance, anomaly.value, overall, ClassifyRisk(overall))
  }

  /** The endpoint answers with scores exactly when the ensemble predicted
      with an anomaly score and the compliance request did not raise;
      every failure is a 500. */
  lemma ScoredIff(ensemble: Ensemble.Prediction, reply: ComplianceReply, fallback: real, errorText: string)
    requires IsDraw(fallback)
    ensures var r := DetectFraud(ensemble, reply, fallback, errorText);
      && (r.Scored? <==> ensemble.Predicted? && ensemble.anomaly.Some? && reply.Reply?)
      && (r.ServerError? ==> r.status == 500)
  {
  }

  /** A scored answer passes the ensemble's two percentages through and
      classifies the average of the three. */
  lemma ScoredFields(ensemble: Ensemble.Prediction, reply: ComplianceReply, fallback: real, errorText: string)
    requires IsDraw(fallback)
    ensures var r := DetectFraud(ensemble, reply, fallback, errorText);
      r.Scored? ==>
        && r.fraudPercent == ensemble.fraud && Some(r.behaviorAnomalyPercent) == ensemble.anomaly
        && 3.0 * r.overallRisk == r.fraudPercent + r.compliancePercent + r.behaviorAnomalyPercent
        && r.riskClass == ClassifyRisk(r.overallRisk)
  {
  }

  /** Without a compliance score (any status but 200, or a reply without a
      score) the compliance percentage lies in [20, 80]; with one it is
      the extracted score. */
  lemma ComplianceFallback(status: int, content: string, fallback: real)
    requires IsDraw(fallback)
    ensures ComplianceScore.ComplianceRisk(status, content).None? ==>
      20.0 <= CompliancePercent(status, content, fallback) <= 80.0
    ensures status != 200 ==> 20.0 <= CompliancePercent(status, content, fallback) <= 80.0
    ensures status == 200 && ComplianceScore.ExtractRiskScore(content).Some? ==>
      CompliancePercent(status, content, fallback) == ComplianceScore.ExtractRiskScore(content).value
  {
  }

  /** The average lies between the smallest and the largest of the three. */
  lemma OverallBetween(f: real, c: real, a: real, lo: real, hi: real)
    requires lo <= f <= hi && lo <= c <= hi && lo <= a <= hi
    ensures lo <= OverallRisk(f, c, a) <= hi
  {
  }

  /** With no isolation forest loaded, the anomaly is "N/A" and the endpoint
      always fails with a 500. */
  lemma NoForestAlwaysFails(present: set<Ensemble.ModelFile>, calls: seq<Ensemble.ModelCall>,
                            reply: ComplianceReply, fallback: real, errorText: string)
    requires |calls| == |Ensemble.LoadedNames(present)|
    requires Ensemble.IsolationForest !in present && IsDraw(fallback)
    ensures DetectFraud(Ensemble.Outcome(Ensemble.LoadedNames(present), calls), reply, fallback, errorText).ServerError?
  {
    if Ensemble.LoadedNames(present) != [] {
      Ensemble.AnomalyOfLoaded(present, calls);
    } else {
      Ensemble.NeverZeroWeight(Ensemble.LoadedNames(present), calls);
    }
  }

  /** With no model files present, the answer is the 500 carrying the
      ensemble's message. */
  lemma NoModelsMessagePassed(calls: seq<Ensemble.ModelCall>, reply: ComplianceReply, fallback: real, errorText: string)
    requires |calls| == |Ensemble.LoadedNames({})| && IsDraw(fallback)
    ensures DetectFraud(Ensemble.Outcome(Ensemble.LoadedNames({}), calls), reply, fallback, errorText)
      == ServerError(500, NoModelsMessage)
  {
    var loaded := Ensemble.LoadedNames({});
    Ensemble.LoadedIff({}, if loaded == [] then Ensemble.Xgb else loaded[0]);
    assert loaded == [];
  }

  /** A reply outside [0, 100] is not clamped: a model answering "5" gives
      500 percent compliance, so the average can exceed 100. */
  lemma UnclampedCompliance(fallback: real)
    requires IsDraw(fallback)
    ensures CompliancePercent(200, "5", fallback) == 500.0
  {
    NumberReply5();
  }

  /** The reply "5" is the number 5, scored as 500 percent. */
  lemma NumberReply5()
    ensures ComplianceScore.ExtractRiskScore("5") == Some(500.0)
  {
    assert NatToString(5) == "5";
    Numbers.NatToStringParses(5);
    Numbers.DigitsAreTrimmed(Numbers.PyBlanks, "5");
    ComplianceScore.NumericReplyScaled("5");
  }

  /** With the forest alone loaded and a scored reply, the answer is the
      forest's anomaly, no fraud, and their average with the compliance. */
  lemma ForestAloneScored(x: real, status: int, content: string, fallback: real, errorText: string)
    requires IsDraw(fallback)
    ensures var c := CompliancePercent(status, content, fallback);
      var a := (1.0 - x) * 100.0;
      DetectFraud(Ensemble.Outcome([Ensemble.IsolationForest], [Ensemble.Returns(x)]), Reply(status, content), fallback, errorText)
        == Scored(0.0, c, a, OverallRisk(0.0, c, a), ClassifyRisk(OverallRisk(0.0, c, a)))
  {
    Ensemble.ForestAlone(x);
    var p := Ensemble.Outcome([Ensemble.IsolationForest], [Ensemble.Returns(x)]);
    assert p.Predicted? && p.fraud == 0.0 && p.anomaly == Some((1.0 - x) * 100.0);
  }

  /** The endpoint over the module-level ensemble object. */
  method DetectFraudEndpoint(model: Ensemble.FraudEnsembleModel, calls: seq<Ensemble.ModelCall>,
                             reply: ComplianceReply, fallback: real, errorText: string)
    returns (r: Response)
    requires |calls| == |model.models| && IsDraw(fallback)
    ensures r == DetectFraud(Ensemble.Outcome(model.models, calls), reply, fallback, errorText)
  {
    var prediction := model.Predict(calls);
    r := DetectFraud(prediction, reply, fallback, errorText);
  }
}
