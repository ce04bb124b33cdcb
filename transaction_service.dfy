/** The backend transaction service: its synthetic transaction generator,
    the two mock data sources, the shaping of the agent's results into one
    scored record, and the automated feed that fetches and scores a batch.

    Random draws and the clock are inputs; so are the results of the
    agent's model calls (see FraudAgent), and the text of an exception. */
module TransactionService {
  import opened Values
  import opened RandomDraws
  import opened Transactions
  import FraudAgent

  // ---------------------------------------------------------------------
  // The generator
  // ---------------------------------------------------------------------

  /** What one call to the generator consumes: its draws, `int(time.time())`
      and `datetime.now().isoformat()`. */
  datatype GenInput = GenInput(draws: seq<real>, nowSeconds: int, nowIso: string)

  predicate ValidGen(g: GenInput) {
    DrawsFit(g.draws)
  }

  /** `transaction_data` of `generate_mock_transaction`: bounded draws, a
      product code and an e-mail domain from their lists, and the clock. */
  function ServiceDataOf(d: seq<real>, nowSeconds: int): (r: TransactionData)
    requires DrawsFit(d)
    ensures r.transactionDT == nowSeconds
    ensures r.productCD in ProductCodes && r.emailDomain in EmailDomains
  {
    TransactionData(
      transactionAmt := Uniform(d[0], 10.0, 10000.0),
      productCD := Choice(d[17], ProductCodes),
      card1 := RandInt(d[1], 1000, 9999),
      card2 := RandInt(d[2], 100, 999),
      card3 := RandInt(d[3], 100, 999),
      card5 := RandInt(d[4], 100, 999),
      addr1 := RandInt(d[5], 100, 999),
      dist1 := RandInt(d[6], 0, 5000),
      c1 := RandInt(d[7], 0, 9),
      c2 := RandInt(d[8], 0, 4),
      d1 := RandInt(d[9], 0, 29),
      d15 := RandInt(d[10], 0, 4),
      v95 := Uniform(d[11], -2.0, 2.0),
      v96 := Uniform(d[12], -2.0, 2.0),
      v97 := Uniform(d[13], -2.0, 2.0),
      v126 := Uniform(d[14], -2.0, 2.0),
      v127 := Uniform(d[15], -2.0, 2.0),
      transactionDT := nowSeconds,
      emailDomain := Choice(d[16], EmailDomains))
  }

  /** The five previous-transaction rows. */
  function ServiceSequenceOf(d: seq<real>, data: TransactionData): (rows: seq<seq<real>>)
    requires DrawsFit(d)
    ensures |rows| == 5
  {
    seq(5, k requires 0 <= k < 5 => [Uniform(d[18 + k], 50.0, 2000.0)] + RowTail(data))
  }

  function ServiceUserId(d: seq<real>): string requires DrawsFit(d) {
    "user_" + NatToString(RandInt(d[24], 0, 999))
  }

  function ServiceRecipientId(d: seq<real>): string requires DrawsFit(d) {
    "recipient_" + NatToString(RandInt(d[25], 0, 999))
  }

  function ServiceBankId(d: seq<real>): string requires DrawsFit(d) {
    "bank_" + NatToString(RandInt(d[26], 0, 99))
  }

  function ServiceNetworkOf(d: seq<real>, amount: real, dt: int): Network
    requires DrawsFit(d)
  {
    Network(
      map[
        ServiceUserId(d) := NodeAttrs(RandInt(d[27], 1, 50), Uniform(d[28], 0.0, 50000.0),
                                      Uniform(d[29], 0.0, 0.9), RandInt(d[30], 1, 1000), Flag(d[31], 0.7)),
        ServiceRecipientId(d) := NodeAttrs(RandInt(d[32], 1, 500), Uniform(d[33], 0.0, 1000000.0),
                                           Uniform(d[34], 0.0, 0.9), RandInt(d[35], 30, 3650), Flag(d[36], 0.3)),
        ServiceBankId(d) := NodeAttrs(RandInt(d[37], 1000, 10000), Uniform(d[38], 0.0, 100000000.0),
                                      Uniform(d[39], 0.0, 0.5), RandInt(d[40], 365, 10000), 1)],
      [Edge(ServiceUserId(d), ServiceBankId(d), amount, dt, RandInt(d[41], 1, 100), Flag(d[42], 0.7)),
       Edge(ServiceBankId(d), ServiceRecipientId(d), amount, dt + 1, RandInt(d[43], 1, 100), Flag(d[44], 0.7))])
  }

  function ServiceMetadataOf(d: seq<real>, nowIso: string): Metadata
    requires DrawsFit(d)
  {
    Metadata(
      ServiceUserId(d),
      "device_" + NatToString(RandInt(d[45], 0, 9999)),
      IpAddress(RandInt(d[46], 0, 255), RandInt(d[47], 0, 255), RandInt(d[48], 0, 255), RandInt(d[49], 0, 255)),
      Choice(d[50], Browsers),
      nowIso,
      RandInt(d[51], 1, 1000))
  }

  /** What `generate_mock_transaction` returns for the input `g`. */
  function ServiceMockOf(g: GenInput): (t: MockTransaction)
    requires ValidGen(g)
    ensures t.data == ServiceDataOf(g.draws, g.nowSeconds)
  {
    var d := g.draws;
    var data := ServiceDataOf(d, g.nowSeconds);
    MockTransaction(data, ServiceSequenceOf(d, data), Choice(d[23], Descriptions),
                    ServiceNetworkOf(d, data.transactionAmt, data.transactionDT), ServiceMetadataOf(d, g.nowIso))
  }

  /** The inclusive integer ranges of the service's generator. */
  ghost predicate ServiceRanges(t: MockTransaction) {
    && 10.0 <= t.data.transactionAmt <= 10000.0
    && 1000 <= t.data.card1 <= 9999
    && 100 <= t.data.card2 <= 999 && 100 <= t.data.card3 <= 999 && 100 <= t.data.card5 <= 999
    && 100 <= t.data.addr1 <= 999
    && 0 <= t.data.dist1 <= 5000
    && 0 <= t.data.c1 <= 9 && 0 <= t.data.c2 <= 4
    && 0 <= t.data.d1 <= 29 && 0 <= t.data.d15 <= 4
    && -2.0 <= t.data.v95 <= 2.0 && -2.0 <= t.data.v96 <= 2.0 && -2.0 <= t.data.v97 <= 2.0
    && -2.0 <= t.data.v126 <= 2.0 && -2.0 <= t.data.v127 <= 2.0
    && (forall k :: 0 <= k < |t.sequence| ==> |t.sequence[k]| == 11 && 50.0 <= t.sequence[k][0] <= 2000.0)
  }

  lemma ServiceNodeIdsDistinct(d: seq<real>)
    requires DrawsFit(d)
    ensures ServiceUserId(d) != ServiceBankId(d) && ServiceUserId(d) != ServiceRecipientId(d)
    ensures ServiceBankId(d) != ServiceRecipientId(d)
  {
    PrefixesDiffer("user_", "bank_", NatToString(RandInt(d[24], 0, 999)), NatToString(RandInt(d[26], 0, 99)));
    PrefixesDiffer("user_", "recipient_", NatToString(RandInt(d[24], 0, 999)), NatToString(RandInt(d[25], 0, 999)));
    PrefixesDiffer("bank_", "recipient_", NatToString(RandInt(d[26], 0, 99)), NatToString(RandInt(d[25], 0, 999)));
  }

  /** Whatever the draws, the generated transaction has the structure the
      page's generator promises too. */
  lemma ServiceMockShaped(g: GenInput)
    requires ValidGen(g)
    ensures Shaped(ServiceMockOf(g))
  {
    var data := ServiceDataOf(g.draws, g.nowSeconds);
    ServiceNetworkShaped(g.draws, data.transactionAmt, data.transactionDT);
    ServiceSequenceShaped(g.draws, data);
  }

  /** The network: two edges user to bank to recipient carrying the amount,
      over three distinct nodes. */
  lemma ServiceNetworkShaped(d: seq<real>, amount: real, dt: int)
    requires DrawsFit(d)
    ensures var n := ServiceNetworkOf(d, amount, dt);
      && |n.edges| == 2 && |n.nodes| == 3
      && n.edges[0].amount == amount && n.edges[1].amount == amount
      && n.edges[0].timestamp == dt && n.edges[1].timestamp == dt + 1
      && n.edges[0].target == n.edges[1].source && n.edges[0].source == ServiceUserId(d)
      && n.edges[0].source in n.nodes && n.edges[0].target in n.nodes && n.edges[1].target in n.nodes
  {
    ServiceNodeIdsDistinct(d);
    var nodes := ServiceNetworkOf(d, amount, dt).nodes;
    assert nodes.Keys == {ServiceUserId(d), ServiceRecipientId(d), ServiceBankId(d)};
    assert |nodes.Keys| == 3;
  }

  /** Each sequence row is a fresh amount followed by the transaction's fields. */
  lemma ServiceSequenceShaped(d: seq<real>, data: TransactionData)
    requires DrawsFit(d)
    ensures forall k :: 0 <= k < 5 ==>
      |ServiceSequenceOf(d, data)[k]| == 11 && ServiceSequenceOf(d, data)[k][1..] == RowTail(data)
  {
    forall k | 0 <= k < 5
      ensures |ServiceSequenceOf(d, data)[k]| == 11 && ServiceSequenceOf(d, data)[k][1..] == RowTail(data)
    {
      assert ServiceSequenceOf(d, data)[k] == [Uniform(d[18 + k], 50.0, 2000.0)] + RowTail(data);
    }
  }

  /** Whatever the draws, every field keeps its inclusive range. */
  lemma ServiceMockInRange(g: GenInput)
    requires ValidGen(g)
    ensures ServiceRanges(ServiceMockOf(g))
  {
    var d := g.draws;
    var t := ServiceMockOf(g);
    forall k | 0 <= k < |t.sequence|
      ensures |t.sequence[k]| == 11 && 50.0 <= t.sequence[k][0] <= 2000.0
    {
      assert t.sequence[k] == [Uniform(d[18 + k], 50.0, 2000.0)] + RowTail(t.data);
    }
  }

  // ---------------------------------------------------------------------
  // Shaping the agent's results
  // ---------------------------------------------------------------------

  /** `d.get(k, default)`. */
  function Get(m: map<string, Value>, k: string, default: Value): (v: Value)
    ensures k in m ==> v == m[k]
    ensures k !in m ==> v == default
  {
    if k in m then m[k] else default
  }

  /** A value Python arithmetic accepts: a number or a boolean. NaN and
      everything else make the multiplication raise in this model. */
  function PyNumber(v: Value): Option<real> {
    match v
    case Num(x) => Some(x)
    case Bool(b) => Some(if b then 1.0 else 0.0)
    case _ => None
  }

  /** `s[1] if len(s) > 1 else 0.5`; None when `len` or the subscript raises
      (numbers, booleans and None have no length; a dict has no key 1). */
  function SecondOrHalf(v: Value): Option<Value> {
    match v
    case Arr(items) => Some(if |items| > 1 then items[1] else Num(0.5))
    case Str(s) => Some(if |s| > 1 then Str([s[1]]) else Num(0.5))
    case Obj(f) => if |f| > 1 then None else Some(Num(0.5))
    case _ => None
  }

  const DefaultCompliance: Value := Arr([Num(0.5), Num(0.5)])

  /** The weighted average of the four scores. */
  function OverallRisk(fraud: real, compliance: real, behavior: real, network: real): real {
    0.4 * fraud + 0.2 * compliance + 0.2 * behavior + 0.2 * network
  }

  const ResponseKeys: set<string> := {"fraud_probability", "compliance_risk", "behavior_anomaly",
    "overall_risk", "details", "timestamp", "transaction_amount", "transaction_text"}

  const ErrorKeys: set<string> := {"error", "timestamp"}

  function ErrorRecord(errorText: string, nowIso: string): map<string, Value> {
    map["error" := Str(errorText), "timestamp" := Str(nowIso)]
  }

  /** `process_transaction` after `agent.predict` returned `results`:
      defaults for the missing scores, the weighted overall risk, and the
      error record when any step raises. */
  function ProcessResults(results: map<string, Value>, tx: map<string, Value>, nowIso: string, errorText: string)
    : (r: map<string, Value>)
    ensures r.Keys == ResponseKeys || r == ErrorRecord(errorText, nowIso)
    ensures r.Keys == ResponseKeys ==> r["details"] == Obj(results) && r["timestamp"] == Str(nowIso)
  {
    var fraud := Get(results, "fraud", Num(0.0));
    var compliance := SecondOrHalf(Get(results, "compliance", DefaultCompliance));
    var behavior := Get(results, "behavior", Num(0.0));
    var network := Get(results, "network", Num(0.0));
    if compliance.None? || PyNumber(fraud).None? || PyNumber(compliance.value).None?
       || PyNumber(behavior).None? || PyNumber(network).None?
    then ErrorRecord(errorText, nowIso)
    else
      var overall := OverallRisk(PyNumber(fraud).value, PyNumber(compliance.value).value,
                                 PyNumber(behavior).value, PyNumber(network).value);
      var data := Get(tx, "transaction_data", Obj(map[]));
      if !data.Obj? then ErrorRecord(errorText, nowIso)
      else map[
        "fraud_probability" := fraud,
        "compliance_risk" := compliance.value,
        "behavior_anomaly" := behavior,
        "overall_risk" := Num(overall),
        "details" := Obj(results),
        "timestamp" := Str(nowIso),
        "transaction_amount" := Get(data.fields, "TransactionAmt", Num(0.0)),
        "transaction_text" := Get(tx, "transaction_text", Str(""))]
  }

  /** The record is either the full response or the two-key error record. */
  lemma ProcessedShape(results: map<string, Value>, tx: map<string, Value>, nowIso: string, errorText: string)
    ensures var r := ProcessResults(results, tx, nowIso, errorText);
      && (r.Keys == ResponseKeys || r == ErrorRecord(errorText, nowIso))
      && r["timestamp"] == Str(nowIso)
      && ("error" in r <==> r.Keys == ErrorKeys)
      && (r.Keys == ResponseKeys ==> r["overall_risk"].Num? && r["details"] == Obj(results))
  {
  }

  /** The weights add up to 1, so four scores in [0, 1] give an overall
      risk in [0, 1], lying between the smallest and the largest score. */
  lemma OverallWithin(f: real, c: real, b: real, n: real, lo: real, hi: real)
    requires lo <= f <= hi && lo <= c <= hi && lo <= b <= hi && lo <= n <= hi
    ensures lo <= OverallRisk(f, c, b, n) <= hi
    ensures OverallRisk(1.0, 1.0, 1.0, 1.0) == 1.0
  {
  }

  /** With no scores at all, every default applies: fraud, behaviour and
      network 0.0 and compliance 0.5, for an overall risk of 0.1. */
  lemma EmptyResultsDefaults(tx: map<string, Value>, nowIso: string, errorText: string)
    requires "transaction_data" !in tx || tx["transaction_data"].Obj?
    ensures var r := ProcessResults(map[], tx, nowIso, errorText);
      && r.Keys == ResponseKeys
      && r["fraud_probability"] == Num(0.0) && r["compliance_risk"] == Num(0.5)
      && r["behavior_anomaly"] == Num(0.0) && r["overall_risk"] == Num(0.1)
  {
  }

  /** A compliance list of one entry, or an empty one, counts as 0.5; a
      longer one contributes its second entry. */
  lemma ComplianceEntry(items: seq<Value>)
    ensures |items| <= 1 ==> SecondOrHalf(Arr(items)) == Some(Num(0.5))
    ensures |items| > 1 ==> SecondOrHalf(Arr(items)) == Some(items[1])
  {
  }

  /** A non-numeric score turns the record into the error record. */
  lemma NonNumericScoreFails(results: map<string, Value>, tx: map<string, Value>, nowIso: string, errorText: string)
    requires "fraud" in results && PyNumber(results["fraud"]).None?
    ensures ProcessResults(results, tx, nowIso, errorText) == ErrorRecord(errorText, nowIso)
  {
  }

  /** What the agent returns never makes shaping fail, and a compliance
      list of two or more probabilities contributes its second one. */
  lemma AgentResultsShaped(m: FraudAgent.Models, c: FraudAgent.AgentCalls, tx: map<string, Value>,
                           nowIso: string, errorText: string)
    requires "transaction_data" !in tx || tx["transaction_data"].Obj?
    ensures var results := FraudAgent.Results(m, tx.Keys, c);
      var r := ProcessResults(results, tx, nowIso, errorText);
      && r.Keys == ResponseKeys
      && r["overall_risk"].Num?
      && ("compliance" in results && |FraudAgent.CheckCompliance(c.compliance)| > 1 ==>
            r["compliance_risk"] == Num(FraudAgent.CheckCompliance(c.compliance)[1]))
  {
    var results := FraudAgent.Results(m, tx.Keys, c);
    FraudAgent.ResultValues(m, tx.Keys, c);
    NumericResultsShaped(results, tx, nowIso, errorText);
  }

  /** Numeric scores and a list of numbers for compliance always shape into
      the full response. */
  lemma NumericResultsShaped(results: map<string, Value>, tx: map<string, Value>, nowIso: string, errorText: string)
    requires "fraud" in results ==> results["fraud"].Num?
    requires "behavior" in results ==> results["behavior"].Num?
    requires "network" in results ==> results["network"].Num?
    requires "compliance" in results ==>
      results["compliance"].Arr? && forall i :: 0 <= i < |results["compliance"].items| ==> results["compliance"].items[i].Num?
    requires "transaction_data" !in tx || tx["transaction_data"].Obj?
    ensures var r := ProcessResults(results, tx, nowIso, errorText);
      && r.Keys == ResponseKeys
      && r["overall_risk"].Num?
      && ("compliance" in results && |results["compliance"].items| > 1 ==>
            r["compliance_risk"] == results["compliance"].items[1])
  {
  }

  /** For a generated transaction, the record carries its amount and text. */
  lemma GeneratedAmountCarried(t: MockTransaction, results: map<string, Value>, nowIso: string, errorText: string)
    ensures var r := ProcessResults(results, ToValue(t).fields, nowIso, errorText);
      r.Keys == ResponseKeys ==>
        r["transaction_amount"] == Num(t.data.transactionAmt) && r["transaction_text"] == Str(t.text)
  {
    RecordCarriesInput(results, ToValue(t).fields, nowIso, errorText);
  }

  /** The full record copies the request's amount and text. */
  lemma RecordCarriesInput(results: map<string, Value>, tx: map<string, Value>, nowIso: string, errorText: string)
    requires "transaction_data" in tx && tx["transaction_data"].Obj? && "transaction_text" in tx
    requires "TransactionAmt" in tx["transaction_data"].fields
    ensures var r := ProcessResults(results, tx, nowIso, errorText);
      r.Keys == ResponseKeys ==>
        && r["transaction_amount"] == tx["transaction_data"].fields["TransactionAmt"]
        && r["transaction_text"] == tx["transaction_text"]
  {
  }

  // ---------------------------------------------------------------------
  // Sources and the feed
  // ---------------------------------------------------------------------

  /** ASCII lower-casing (`str.lower` on the source names). */
  function Lower(s: string): (r: string)
    ensures |r| == |s|
  {
    seq(|s|, i requires 0 <= i < |s| => if 'A' <= s[i] <= 'Z' then (s[i] as int + 32) as char else s[i])
  }

  /** The source names `start_automated_feed` recognises. */
  datatype Source = Plaid | Stripe | Unsupported

  /** The source a name selects once lower-cased. */
  function SourceOf(source: string): (r: Source)
    ensures r == Plaid <==> Lower(source) == "plaid"
    ensures r == Stripe <==> Lower(source) == "stripe"
  {
    var s := Lower(source);
    if s == "plaid" then Plaid else if s == "stripe" then Stripe else Unsupported
  }

  /** How many transactions a source yields: 5 from Plaid, `limit` (none
      when negative) from Stripe, none from anything else. */
  function FetchCount(src: Source, limit: int): (n: nat)
    ensures n == 0 <==> src == Unsupported || (src == Stripe && limit <= 0)
    ensures src == Stripe && limit > 0 ==> n == limit
  {
    match src
    case Plaid => 5
    case Stripe => if limit > 0 then limit else 0
    case Unsupported => 0
  }

  /** What scoring one fetched transaction consumes. */
  datatype FeedItem = FeedItem(gen: GenInput, calls: FraudAgent.AgentCalls, processedAt: string, errorText: string)

  predicate ValidItems(items: seq<FeedItem>) {
    forall k :: 0 <= k < |items| ==> ValidGen(items[k].gen)
  }

  /** The record `process_transaction` builds for a transaction. */
  function ProcessMock(m: FraudAgent.Models, t: MockTransaction, it: FeedItem): map<string, Value> {
    var tx := ToValue(t).fields;
    ProcessResults(FraudAgent.Results(m, tx.Keys, it.calls), tx, it.processedAt, it.errorText)
  }

  /** The record the service builds for one fetched transaction. */
  function ProcessedItem(m: FraudAgent.Models, it: FeedItem): map<string, Value>
    requires ValidGen(it.gen)
  {
    ProcessMock(m, ServiceMockOf(it.gen), it)
  }

  /** The clock as `start_automated_feed` reads it: the hours from
      `datetime.min` to now and from now to `datetime.max`. */
  datatype Clock = Clock(sinceMin: real, untilMax: real)

  /** `current_time - timedelta(hours=interval)` raises OverflowError: the
      timedelta lies outside its range of 999999999 days either way, or
      the difference lies outside the datetime range. */
  predicate WindowOverflows(interval: int, clock: Clock) {
    || interval < -999999999 * 24 || interval >= 1000000000 * 24
    || interval as real > clock.sinceMin || -(interval as real) > clock.untilMax
  }

  /** `start_automated_feed`, specified: nothing when the date window
      overflows (the handler returns []), otherwise one record per fetched
      transaction, in fetch order. */
  function FeedResults(m: FraudAgent.Models, source: string, limit: int, interval: int, clock: Clock,
                       items: seq<FeedItem>)
    : (rs: seq<map<string, Value>>)
    requires ValidItems(items) && FetchCount(SourceOf(source), limit) <= |items|
    ensures WindowOverflows(interval, clock) ==> rs == []
    ensures !WindowOverflows(interval, clock) ==> |rs| == FetchCount(SourceOf(source), limit)
    ensures forall k :: 0 <= k < |rs| ==> rs[k] == ProcessedItem(m, items[k])
  {
    if WindowOverflows(interval, clock) then [] else ProcessedItems(m, items, FetchCount(SourceOf(source), limit))
  }

  /** The records of the first `n` fetched transactions, in order. */
  function ProcessedItems(m: FraudAgent.Models, items: seq<FeedItem>, n: nat): (rs: seq<map<string, Value>>)
    requires ValidItems(items) && n <= |items|
    ensures |rs| == n && forall k :: 0 <= k < n ==> rs[k] == ProcessedItem(m, items[k])
  {
    seq(n, k requires 0 <= k < n => ProcessedItem(m, items[k]))
  }

  /** With the default interval of 12 hours and a clock at least 12 hours
      after `datetime.min`, the window never overflows. */
  lemma DefaultIntervalFits(clock: Clock)
    requires clock.sinceMin >= 12.0 && clock.untilMax >= 0.0
    ensures !WindowOverflows(12, clock)
  {
  }

  /** A window reaching back before `datetime.min` makes the whole feed
      empty, whatever the source. */
  lemma OverflowEmptiesFeed(m: FraudAgent.Models, source: string, limit: int, interval: int, clock: Clock,
                            items: seq<FeedItem>)
    requires ValidItems(items) && FetchCount(SourceOf(source), limit) <= |items|
    requires 0 <= interval < 1000000000 * 24 && interval as real > clock.sinceMin
    ensures FeedResults(m, source, limit, interval, clock, items) == []
  {
  }

  /** Appending the next generated transaction keeps the list equal,
      element by element, to the generator's output. */
  lemma Appended(ts: seq<MockTransaction>, gens: seq<GenInput>, t: MockTransaction)
    requires |gens| == |ts| + 1 && forall k :: 0 <= k < |gens| ==> ValidGen(gens[k])
    requires forall k :: 0 <= k < |ts| ==> ts[k] == ServiceMockOf(gens[k])
    requires t == ServiceMockOf(gens[|ts|])
    ensures forall k :: 0 <= k < |gens| ==> (ts + [t])[k] == ServiceMockOf(gens[k])
  {
    forall k | 0 <= k < |gens| ensures (ts + [t])[k] == ServiceMockOf(gens[k]) {
      if k < |ts| {
        assert (ts + [t])[k] == ts[k];
      }
    }
  }

  /** Scoring the fetched transactions one by one gives the feed's records. */
  lemma FetchedFeed(m: FraudAgent.Models, source: string, limit: int, interval: int, clock: Clock,
                    items: seq<FeedItem>, ts: seq<MockTransaction>, rs: seq<map<string, Value>>)
    requires ValidItems(items) && FetchCount(SourceOf(source), limit) <= |items|
    requires !WindowOverflows(interval, clock)
    requires |ts| == FetchCount(SourceOf(source), limit)
    requires forall k :: 0 <= k < |ts| ==> ts[k] == ServiceMockOf(items[k].gen)
    requires |rs| == |ts| && forall k :: 0 <= k < |rs| ==> rs[k] == ProcessMock(m, ts[k], items[k])
    ensures rs == FeedResults(m, source, limit, interval, clock, items)
  {
  }

  /** The source name is matched without regard to case. */
  lemma SourceCaseInsensitive()
    ensures SourceOf("plaid") == SourceOf("Plaid") == SourceOf("PLAID") == Plaid
    ensures SourceOf("stripe") == SourceOf("Stripe") == SourceOf("STRIPE") == Stripe
  {
    assert Lower("plaid") == Lower("Plaid") == Lower("PLAID") == "plaid";
    assert Lower("stripe") == Lower("Stripe") == Lower("STRIPE") == "stripe";
  }

  /** Plaid yields five records whatever the limit, Stripe one per unit of
      a positive limit, and an unsupported source none at all. */
  lemma FeedCounts(m: FraudAgent.Models, source: string, limit: int, interval: int, clock: Clock,
                   items: seq<FeedItem>)
    requires ValidItems(items) && FetchCount(SourceOf(source), limit) <= |items|
    requires !WindowOverflows(interval, clock)
    ensures var rs := FeedResults(m, source, limit, interval, clock, items);
      && (Lower(source) == "plaid" ==> |rs| == 5)
      && (Lower(source) == "stripe" ==> |rs| == (if limit > 0 then limit else 0))
      && (Lower(source) != "plaid" && Lower(source) != "stripe" ==> rs == [])
  {
  }

  /** Every record of an automated feed describes the transaction it scored:
      its amount and text, unless it is an error record. */
  lemma FeedRecordsDescribeTransactions(m: FraudAgent.Models, source: string, limit: int, interval: int,
                                         clock: Clock, items: seq<FeedItem>, k: nat)
    requires ValidItems(items) && FetchCount(SourceOf(source), limit) <= |items|
    requires k < |FeedResults(m, source, limit, interval, clock, items)|
    ensures var r := FeedResults(m, source, limit, interval, clock, items)[k];
      var t := ServiceMockOf(items[k].gen);
      r.Keys == ResponseKeys ==>
        r["transaction_amount"] == Num(t.data.transactionAmt) && r["transaction_text"] == Str(t.text)
  {
    var t := ServiceMockOf(items[k].gen);
    var tx := ToValue(t).fields;
    GeneratedAmountCarried(t, FraudAgent.Results(m, tx.Keys, items[k].calls), items[k].processedAt, items[k].errorText);
  }

  /** The service object: it owns one fraud detection agent. */
  class TransactionServiceState {
    const agent: FraudAgent.FraudDetectionAgent

    constructor (agent: FraudAgent.FraudDetectionAgent)
      ensures this.agent == agent
    {
      this.agent := agent;
    }

    /** `generate_mock_transaction`, with its loop appending the rows. */
    method GenerateMockTransaction(g: GenInput) returns (t: MockTransaction)
      requires ValidGen(g)
      ensures t == ServiceMockOf(g)
    {
      var d := g.draws;
      var data := ServiceDataOf(d, g.nowSeconds);
      var transactionSequence: seq<seq<real>> := [];
      var i := 0;
      while i < 5
        invariant 0 <= i <= 5
        invariant transactionSequence == ServiceSequenceOf(d, data)[..i]
      {
        var seqAmount := Uniform(d[18 + i], 50.0, 2000.0);
        transactionSequence := transactionSequence + [[seqAmount] + RowTail(data)];
        i := i + 1;
      }
      assert transactionSequence == ServiceSequenceOf(d, data);
      t := MockTransaction(data, transactionSequence, Choice(d[23], Descriptions),
                           ServiceNetworkOf(d, data.transactionAmt, data.transactionDT), ServiceMetadataOf(d, g.nowIso));
    }

    /** `get_plaid_transactions`: five generated transactions. */
    method GetPlaidTransactions(gens: seq<GenInput>) returns (ts: seq<MockTransaction>)
      requires 5 <= |gens| && forall k :: 0 <= k < |gens| ==> ValidGen(gens[k])
      ensures |ts| == 5 && forall k :: 0 <= k < 5 ==> ts[k] == ServiceMockOf(gens[k])
    {
      ts := GenerateN(gens, 5);
    }

    /** `get_stripe_transactions`: `limit` generated transactions (none for
      a negative limit, as `range` gives). */
    method GetStripeTransactions(gens: seq<GenInput>, limit: int) returns (ts: seq<MockTransaction>)
      requires limit <= |gens| && forall k :: 0 <= k < |gens| ==> ValidGen(gens[k])
      ensures |ts| == (if limit > 0 then limit else 0)
      ensures forall k :: 0 <= k < |ts| ==> ts[k] == ServiceMockOf(gens[k])
    {
      ts := GenerateN(gens, if limit > 0 then limit else 0);
    }

    method GenerateN(gens: seq<GenInput>, n: nat) returns (ts: seq<MockTransaction>)
      requires n <= |gens| && forall k :: 0 <= k < |gens| ==> ValidGen(gens[k])
      ensures |ts| == n && forall k :: 0 <= k < n ==> ts[k] == ServiceMockOf(gens[k])
    {
      ts := [];
      var i := 0;
      while i < n
        invariant 0 <= i <= n && |ts| == i
        invariant forall k :: 0 <= k < i ==> ts[k] == ServiceMockOf(gens[k])
      {
        var t := GenerateMockTransaction(gens[i]);
        Appended(ts, gens[..i + 1], t);
        ts := ts + [t];
        i := i + 1;
      }
    }

    /** `process_transaction`: the agent's prediction, then the shaping. */
    method ProcessTransaction(tx: map<string, Value>, calls: FraudAgent.AgentCalls, nowIso: string, errorText: string)
      returns (r: map<string, Value>)
      ensures r == ProcessResults(FraudAgent.Results(agent.State(), tx.Keys, calls), tx, nowIso, errorText)
    {
      var results := agent.Predict(tx, calls);
      r := ProcessResults(results, tx, nowIso, errorText);
    }

    /** The scoring loop of `start_automated_feed`. */
    method ScoreTransactions(transactions: seq<MockTransaction>, items: seq<FeedItem>)
      returns (results: seq<map<string, Value>>)
      requires |transactions| <= |items|
      ensures |results| == |transactions|
      ensures forall k :: 0 <= k < |results| ==> results[k] == ProcessMock(agent.State(), transactions[k], items[k])
    {
      results := [];
      var i := 0;
      while i < |transactions|
        invariant 0 <= i <= |transactions| && |results| == i
        invariant forall k :: 0 <= k < i ==> results[k] == ProcessMock(agent.State(), transactions[k], items[k])
      {
        var it := items[i];
        var r := ProcessTransaction(ToValue(transactions[i]).fields, it.calls, it.processedAt, it.errorText);
        results := results + [r];
        i := i + 1;
      }
    }

    /** `start_automated_feed`: fetch from the named source, then score each
        transaction in turn. */
    method StartAutomatedFeed(source: string, limit: int, interval: int, clock: Clock, items: seq<FeedItem>)
      returns (results: seq<map<string, Value>>)
      requires ValidItems(items) && FetchCount(SourceOf(source), limit) <= |items|
      ensures results == FeedResults(agent.State(), source, limit, interval, clock, items)
    {
      if WindowOverflows(interval, clock) {
        return [];
      }
      var gens := seq(|items|, k requires 0 <= k < |items| => items[k].gen);
      var transactions: seq<MockTransaction>;
      match SourceOf(source) {
        case Plaid =>
          transactions := GetPlaidTransactions(gens);
        case Stripe =>
          transactions := GetStripeTransactions(gens, limit);
        case Unsupported =>
          return [];
      }
      results := ScoreTransactions(transactions, items);
      FetchedFeed(agent.State(), source, limit, interval, clock, items, transactions, results);
    }
  }
}
