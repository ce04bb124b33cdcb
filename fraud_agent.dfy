/** The multi-model fraud detection agent: which analyses run for a given
    input, the value each one falls back to when it raises, the XGBoost and
    autoencoder combination, and the network score built from centralities.
    Model inference and the graph algorithms are not modelled: their
    results are given. */
module FraudAgent {
  import opened Values

  /** How one model computation ends: a number, or an exception. */
  datatype Computation = Computed(x: real) | Failed

  function Min(a: real, b: real): real {
    if a <= b then a else b
  }

  function Max(a: real, b: real): real {
    if a >= b then a else b
  }

  // ---------------------------------------------------------------------
  // Behaviour, fraud and compliance
  // ---------------------------------------------------------------------

  /** `_analyze_behavior`: the LSTM's output, or 0.0 when it raises. */
  function AnalyzeBehavior(c: Computation): (r: real)
    ensures c.Failed? ==> r == 0.0
    ensures (c.Computed? ==> 0.0 <= c.x <= 1.0) ==> 0.0 <= r <= 1.0
  {
    match c
    case Computed(x) => x
    case Failed => 0.0
  }

  /** `_check_fraud`: the XGBoost prediction, averaged with the reconstruction
      error capped at 1 when the autoencoder can predict; 0.0 when either
      step raises. */
  function CheckFraud(xgb: Computation, recon: Computation, autoencoderPredicts: bool): (r: real)
    ensures xgb.Failed? || (autoencoderPredicts && recon.Failed?) ==> r == 0.0
    ensures xgb.Computed? && !autoencoderPredicts ==> r == xgb.x
  {
    if xgb.Failed? then 0.0
    else if !autoencoderPredicts then xgb.x
    else if recon.Failed? then 0.0
    else (xgb.x + Min(recon.x, 1.0)) / 2.0
  }

  /** A probability and a non-negative reconstruction error give a fraud
      score in [0, 1], never above the larger of the two inputs. */
  lemma CheckFraudWithin(xgb: Computation, recon: Computation, autoencoderPredicts: bool)
    requires xgb.Computed? ==> 0.0 <= xgb.x <= 1.0
    requires recon.Computed? ==> 0.0 <= recon.x
    ensures 0.0 <= CheckFraud(xgb, recon, autoencoderPredicts) <= 1.0
    ensures xgb.Computed? && recon.Computed? && autoencoderPredicts ==>
      Min(xgb.x, Min(recon.x, 1.0)) <= CheckFraud(xgb, recon, autoencoderPredicts) <= Max(xgb.x, Min(recon.x, 1.0))
  {
  }

  /** What FinBERT returns: the class probabilities, or an exception. */
  datatype ComplianceCall = Probabilities(p: seq<real>) | ComplianceFailed

  /** `_check_compliance`: the probabilities, or the neutral [0.5, 0.5]. */
  function CheckCompliance(c: ComplianceCall): (r: seq<real>)
    ensures c.ComplianceFailed? ==> |r| == 2 && r[0] == r[1] == 0.5
    ensures c.Probabilities? ==> r == c.p
  {
    match c
    case Probabilities(p) => p
    case ComplianceFailed => [0.5, 0.5]
  }

  // ---------------------------------------------------------------------
  // Network
  // ---------------------------------------------------------------------

  /** One node of the graph: its centralities, as networkx computes them,
      and its `risk_score` attribute (None when it has none). */
  datatype NodeInfo = NodeInfo(degree: real, betweenness: real, pagerank: real, riskScore: Option<real>)

  /** The built graph: its nodes, the `amount` of each of its edges, and the
      number of its simple cycles. */
  datatype Graph = Graph(nodes: seq<NodeInfo>, amounts: seq<real>, cycles: nat)

  datatype NetworkCall = Analyzed(g: Graph) | NetworkFailed

  /** The weighted centralities, averaged with a truthy `risk_score`. */
  function NodeRisk(n: NodeInfo): (r: real)
    ensures n.riskScore.None? || n.riskScore == Some(0.0) ==>
      r == n.degree * 0.3 + n.betweenness * 0.4 + n.pagerank * 0.3
    ensures n.degree == n.betweenness == n.pagerank && (n.riskScore.Some? ==> n.riskScore.value == n.degree) ==>
      r == n.degree
  {
    var base := n.degree * 0.3 + n.betweenness * 0.4 + n.pagerank * 0.3;
    if n.riskScore.Some? && n.riskScore.value != 0.0 then (base + n.riskScore.value) / 2.0 else base
  }

  function Sum(xs: seq<real>): real {
    if xs == [] then 0.0 else Sum(xs[..|xs| - 1]) + xs[|xs| - 1]
  }

  /** How many amounts exceed `t`. */
  function CountAbove(xs: seq<real>, t: real): (k: nat)
    ensures k <= |xs|
  {
    if xs == [] then 0 else CountAbove(xs[..|xs| - 1], t) + (if xs[|xs| - 1] > t then 1 else 0)
  }

  /** `min(0.2, 0.05 * len(cycles))` when there are cycles. */
  function CyclePenalty(cycles: nat): real {
    if cycles > 0 then Min(0.2, 0.05 * cycles as real) else 0.0
  }

  /** The number of amounts above three times their mean. */
  function Outliers(amounts: seq<real>): nat
    requires amounts != []
  {
    CountAbove(amounts, 3.0 * (Sum(amounts) / |amounts| as real))
  }

  /** `min(0.15, 0.03 * outliers)` when there are outliers. */
  function OutlierPenalty(amounts: seq<real>): real {
    if amounts == [] then 0.0
    else
      var k := Outliers(amounts);
      if k > 0 then Min(0.15, 0.03 * k as real) else 0.0
  }

  function Clamp(x: real): (r: real)
    ensures 0.0 <= r <= 1.0
    ensures 0.0 <= x <= 1.0 ==> r == x
  {
    Max(0.0, Min(1.0, x))
  }

  function NodeRisks(nodes: seq<NodeInfo>): (r: seq<real>)
    ensures |r| == |nodes| && forall i :: 0 <= i < |nodes| ==> r[i] == NodeRisk(nodes[i])
  {
    seq(|nodes|, i requires 0 <= i < |nodes| => NodeRisk(nodes[i]))
  }

  /** `_analyze_network`, specified: 0.5 for a failure or a graph without
      nodes, else the clamped mean node risk plus the two penalties. */
  function NetworkScore(c: NetworkCall): (r: real)
    ensures 0.0 <= r <= 1.0
    ensures c.NetworkFailed? ==> r == 0.5
  {
    match c
    case NetworkFailed => 0.5
    case Analyzed(g) =>
      if g.nodes == [] then 0.5
      else
        var mean := Sum(NodeRisks(g.nodes)) / |g.nodes| as real;
        Clamp(mean + CyclePenalty(g.cycles) + OutlierPenalty(g.amounts))
  }

  /** `_analyze_network`: one node at a time into `risk_scores`, then the
      mean and the penalties. */
  method AnalyzeNetwork(c: NetworkCall) returns (score: real)
    ensures score == NetworkScore(c)
  {
    if c.NetworkFailed? {
      return 0.5;
    }
    var g := c.g;
    var riskScores: seq<real> := [];
    var i := 0;
    while i < |g.nodes|
      invariant 0 <= i <= |g.nodes|
      invariant riskScores == NodeRisks(g.nodes[..i])
    {
      riskScores := riskScores + [NodeRisk(g.nodes[i])];
      i := i + 1;
    }
    assert g.nodes[..i] == g.nodes;
    if riskScores == [] {
      return 0.5;
    }
    var overall := Sum(riskScores) / |riskScores| as real;
    if g.cycles > 0 {
      overall := overall + Min(0.2, 0.05 * g.cycles as real);
    }
    if g.amounts != [] {
      var outliers := Outliers(g.amounts);
      if outliers > 0 {
        overall := overall + Min(0.15, 0.03 * outliers as real);
      }
    }
    score := Max(0.0, Min(1.0, overall));
  }

  /** The network score always lies in [0, 1]; a failure and a graph
      without nodes both give 0.5. */
  lemma NetworkScoreWithin(c: NetworkCall)
    ensures 0.0 <= NetworkScore(c) <= 1.0
    ensures c.NetworkFailed? || c.g.nodes == [] ==> NetworkScore(c) == 0.5
  {
  }

  lemma PenaltiesCapped(cycles: nat, amounts: seq<real>)
    ensures 0.0 <= CyclePenalty(cycles) <= 0.2 && (cycles == 0 <==> CyclePenalty(cycles) == 0.0)
    ensures 0.0 <= OutlierPenalty(amounts) <= 0.15
  {
  }

  /** More cycles never lower the network score. */
  lemma MoreCyclesNoLower(g: Graph, more: nat)
    requires g.cycles <= more
    ensures NetworkScore(Analyzed(g)) <= NetworkScore(Analyzed(g.(cycles := more)))
  {
  }

  predicate UnitNode(n: NodeInfo) {
    && 0.0 <= n.degree <= 1.0 && 0.0 <= n.betweenness <= 1.0 && 0.0 <= n.pagerank <= 1.0
    && (n.riskScore.Some? ==> 0.0 <= n.riskScore.value <= 1.0)
  }

  /** Node risk stays in [0, 1] when the centralities and the attribute do. */
  lemma NodeRiskWithin(n: NodeInfo)
    requires UnitNode(n)
    ensures 0.0 <= NodeRisk(n) <= 1.0
  {
  }

  lemma {:induction false} SumWithin(xs: seq<real>)
    requires forall i :: 0 <= i < |xs| ==> 0.0 <= xs[i] <= 1.0
    ensures 0.0 <= Sum(xs) <= |xs| as real
    decreases |xs|
  {
    if xs != [] {
      SumWithin(xs[..|xs| - 1]);
    }
  }

  lemma UnitQuotient(s: real, n: real)
    requires n > 0.0 && 0.0 <= s <= n
    ensures 0.0 <= s / n <= 1.0 && (s / n) * n == s
  {
    var q := s / n;
    assert q * n == s;
  }

  /** With unit nodes the mean node risk lies in [0, 1]. */
  lemma MeanRiskWithin(nodes: seq<NodeInfo>)
    requires nodes != [] && forall i :: 0 <= i < |nodes| ==> UnitNode(nodes[i])
    ensures 0.0 <= Sum(NodeRisks(nodes)) / |nodes| as real <= 1.0
  {
    var r := NodeRisks(nodes);
    forall i | 0 <= i < |r|
      ensures 0.0 <= r[i] <= 1.0
    {
      NodeRiskWithin(nodes[i]);
    }
    SumWithin(r);
    UnitQuotient(Sum(r), |nodes| as real);
  }

  /** With unit nodes, no cycles and no outliers the clamp changes nothing:
      the score is the mean node risk. */
  lemma PlainGraphScoreIsMean(g: Graph)
    requires g.nodes != [] && forall i :: 0 <= i < |g.nodes| ==> UnitNode(g.nodes[i])
    requires g.cycles == 0 && OutlierPenalty(g.amounts) == 0.0
    ensures NetworkScore(Analyzed(g)) == Sum(NodeRisks(g.nodes)) / |g.nodes| as real
  {
    MeanRiskWithin(g.nodes);
  }

  /** Amounts above a non-negative threshold add up to more than the
      threshold once each. */
  lemma {:induction false} SumAboveCount(xs: seq<real>, t: real)
    requires t >= 0.0 && forall i :: 0 <= i < |xs| ==> xs[i] >= 0.0
    ensures Sum(xs) >= CountAbove(xs, t) as real * t
    ensures CountAbove(xs, t) > 0 ==> Sum(xs) > CountAbove(xs, t) as real * t
    decreases |xs|
  {
    if xs != [] {
      SumAboveCount(xs[..|xs| - 1], t);
    }
  }

  /** With non-negative amounts, fewer than a third of them are outliers. */
  lemma OutliersFewerThanThird(amounts: seq<real>)
    requires amounts != [] && forall i :: 0 <= i < |amounts| ==> amounts[i] >= 0.0
    ensures 3 * Outliers(amounts) < |amounts|
  {
    var n := |amounts| as real;
    var s := Sum(amounts);
    SumWithinNonNegative(amounts);
    var mean := s / n;
    assert mean * n == s;
    var k := Outliers(amounts);
    SumAboveCount(amounts, 3.0 * mean);
    if k > 0 {
      assert s > k as real * (3.0 * mean);
      assert mean * n > mean * (3 * k) as real;
      assert mean > 0.0;
      assert n > (3 * k) as real;
    }
  }

  lemma {:induction false} SumWithinNonNegative(xs: seq<real>)
    requires forall i :: 0 <= i < |xs| ==> xs[i] >= 0.0
    ensures Sum(xs) >= 0.0
    decreases |xs|
  {
    if xs != [] {
      SumWithinNonNegative(xs[..|xs| - 1]);
    }
  }

  // ---------------------------------------------------------------------
  // The agent and `predict`
  // ---------------------------------------------------------------------

  /** Which models the agent holds (the FinBERT model and its tokenizer are
      loaded together or not at all; the XGBoost model always loads, or the
      agent is never built). */
  datatype Models = Models(behavioral: bool, xgb: bool, finbert: bool, tokenizer: bool, gnn: bool,
                           autoencoderPredicts: bool)

  /** The results of the analyses that run. */
  datatype AgentCalls = AgentCalls(behavior: Computation, xgb: Computation, recon: Computation,
                                   compliance: ComplianceCall, network: NetworkCall)

  function NumList(p: seq<real>): (v: Value)
    ensures v.Arr? && |v.items| == |p| && forall i :: 0 <= i < |p| ==> v.items[i] == Num(p[i])
  {
    Arr(seq(|p|, i requires 0 <= i < |p| => Num(p[i])))
  }

  predicate RunsBehavior(m: Models, keys: set<string>) {
    "transaction_sequence" in keys && m.behavioral
  }

  predicate RunsFraud(m: Models, keys: set<string>) {
    "transaction_data" in keys && m.xgb
  }

  predicate RunsCompliance(m: Models, keys: set<string>) {
    "transaction_text" in keys && m.finbert && m.tokenizer
  }

  predicate RunsNetwork(m: Models, keys: set<string>) {
    "network_data" in keys && m.gnn
  }

  /** `predict`, specified: the four entries filled in turn. */
  function Results(m: Models, keys: set<string>, c: AgentCalls): (r: map<string, Value>)
    ensures r.Keys <= {"behavior", "fraud", "compliance", "network"}
    ensures "network" in r ==> r["network"].Num? && 0.0 <= r["network"].n <= 1.0
  {
    var r1 := if RunsBehavior(m, keys) then map["behavior" := Num(AnalyzeBehavior(c.behavior))] else map[];
    var r2 := if RunsFraud(m, keys) then r1["fraud" := Num(CheckFraud(c.xgb, c.recon, m.autoencoderPredicts))] else r1;
    var r3 := if RunsCompliance(m, keys) then r2["compliance" := NumList(CheckCompliance(c.compliance))] else r2;
    if RunsNetwork(m, keys) then r3["network" := Num(NetworkScore(c.network))] else r3
  }

  /** Each key is present exactly when its input is there and its model is
      loaded, and no other key ever is. */
  lemma ResultKeys(m: Models, keys: set<string>, c: AgentCalls)
    ensures var r := Results(m, keys, c);
      && ("behavior" in r <==> "transaction_sequence" in keys && m.behavioral)
      && ("fraud" in r <==> "transaction_data" in keys && m.xgb)
      && ("compliance" in r <==> "transaction_text" in keys && m.finbert && m.tokenizer)
      && ("network" in r <==> "network_data" in keys && m.gnn)
      && r.Keys <= {"behavior", "fraud", "compliance", "network"}
  {
  }

  /** The values present are the analyses' results. */
  lemma ResultValues(m: Models, keys: set<string>, c: AgentCalls)
    ensures var r := Results(m, keys, c);
      && ("behavior" in r ==> r["behavior"] == Num(AnalyzeBehavior(c.behavior)))
      && ("fraud" in r ==> r["fraud"] == Num(CheckFraud(c.xgb, c.recon, m.autoencoderPredicts)))
      && ("compliance" in r ==> r["compliance"] == NumList(CheckCompliance(c.compliance)))
      && ("network" in r ==> r["network"].Num? && 0.0 <= r["network"].n <= 1.0)
  {
    NetworkScoreWithin(c.network);
  }

  /** When every analysis raises, the entries present are the fallbacks:
      behaviour 0.0, fraud 0.0, compliance [0.5, 0.5] and network 0.5. */
  lemma FallbacksOnError(m: Models, keys: set<string>, recon: Computation)
    ensures var r := Results(m, keys, AgentCalls(Failed, Failed, recon, ComplianceFailed, NetworkFailed));
      && ("behavior" in r ==> r["behavior"] == Num(0.0))
      && ("fraud" in r ==> r["fraud"] == Num(0.0))
      && ("compliance" in r ==> r["compliance"] == Arr([Num(0.5), Num(0.5)]))
      && ("network" in r ==> r["network"] == Num(0.5))
  {
    var v := NumList([0.5, 0.5]);
    assert v.items == [Num(0.5), Num(0.5)];
  }

  class FraudDetectionAgent {
    var behavioralModel: bool
    var xgbModel: bool
    var finbert: bool
    var finbertTokenizer: bool
    var gnn: bool
    /** Whether the autoencoder loaded through TensorFlow (the h5py fallback
        has no `predict`). */
    var autoencoderPredicts: bool

    function State(): Models
      reads this
    {
      Models(behavioralModel, xgbModel, finbert, finbertTokenizer, gnn, autoencoderPredicts)
    }

    /** `__init__`: the outcome of each loader is given. */
    constructor (behavioralLoads: bool, tensorflowLoads: bool, gnnLoads: bool, finbertLoads: bool)
      ensures State() == Models(behavioralLoads, true, finbertLoads, finbertLoads, gnnLoads, tensorflowLoads)
    {
      xgbModel := true;
      autoencoderPredicts := tensorflowLoads;
      gnn := gnnLoads;
      finbert, finbertTokenizer := finbertLoads, finbertLoads;
      behavioralModel := behavioralLoads;
    }

    /** `predict`: fills the results key by key. */
    method Predict(inputs: map<string, Value>, c: AgentCalls) returns (results: map<string, Value>)
      ensures results == Results(State(), inputs.Keys, c)
    {
      results := map[];
      if "transaction_sequence" in inputs && behavioralModel {
        results := results["behavior" := Num(AnalyzeBehavior(c.behavior))];
      }
      if "transaction_data" in inputs && xgbModel {
        results := results["fraud" := Num(CheckFraud(c.xgb, c.recon, autoencoderPredicts))];
      }
      if "transaction_text" in inputs && finbert && finbertTokenizer {
        results := results["compliance" := NumList(CheckCompliance(c.compliance))];
      }
      if "network_data" in inputs && gnn {
        var score := AnalyzeNetwork(c.network);
        results := results["network" := Num(score)];
      }
    }
  }
}
