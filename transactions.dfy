/** The synthetic transaction that both generators (the automated-feed page
    and the backend transaction service) build: the five parts of the
    detection request — transaction_data, transaction_sequence,
    transaction_text, network_data and metadata. */
module Transactions {
  import opened Values
  import opened RandomDraws

  /** Number of random draws one generated transaction makes; both
      generators draw in this order: amount 0, card and address fields 1-10,
      V fields 11-15, e-mail 16, product 17, sequence amounts 18-22, text 23,
      node ids 24-26, node attributes 27-40, edge fields 41-44, metadata
      45-51. */
  const MockDraws: nat := 52

  predicate DrawsFit(d: seq<real>) {
    |d| == MockDraws && AllDraws(d)
  }

  /** Two ids with different first letters differ, whatever follows. */
  lemma PrefixesDiffer(a: string, b: string, x: string, y: string)
    requires a != [] && b != [] && a[0] != b[0]
    ensures a + x != b + y
  {
    assert (a + x)[0] == a[0] && (b + y)[0] == b[0];
  }

  datatype TransactionData = TransactionData(
    transactionAmt: real,
    productCD: string,
    card1: int, card2: int, card3: int, card5: int,
    addr1: int, dist1: int,
    c1: int, c2: int, d1: int, d15: int,
    v95: real, v96: real, v97: real, v126: real, v127: real,
    transactionDT: int,
    emailDomain: string)

  datatype NodeAttrs = NodeAttrs(
    transactionCount: int, totalAmount: real, riskScore: real, age: int, isBusiness: int)

  datatype Edge = Edge(
    source: string, target: string, amount: real, timestamp: int, frequency: int, isInternational: int)

  datatype Network = Network(nodes: map<string, NodeAttrs>, edges: seq<Edge>)

  datatype Metadata = Metadata(
    userId: string, deviceFingerprint: string, ipAddress: string,
    browser: string, loginTime: string, accountAgeDays: int)

  datatype MockTransaction = MockTransaction(
    data: TransactionData,
    sequence: seq<seq<real>>,
    text: string,
    network: Network,
    metadata: Metadata)

  const ProductCodes: seq<string> := ["H", "C", "S", "R", "W"]

  const EmailDomains: seq<string> :=
    ["gmail.com", "yahoo.com", "hotmail.com", "outlook.com", "mail.ru", "protonmail.com"]

  const Descriptions: seq<string> := [
    "Purchase at online retailer",
    "Subscription payment",
    "Wire transfer to business account",
    "International payment",
    "ATM withdrawal",
    "Mobile payment to peer",
    "Bill payment",
    "Recurring payment to service provider",
    "International wire transfer",
    "Large purchase at electronics store"
  ]

  const Browsers: seq<string> := ["Chrome", "Firefox", "Safari", "Edge"]

  /** The ten values every sequence row carries after its amount:
      card1, card2, card3, card5, addr1, dist1, C1, C2, D1, D15. */
  function RowTail(d: TransactionData): (t: seq<real>)
    ensures |t| == 10
  {
    [d.card1 as real, d.card2 as real, d.card3 as real, d.card5 as real,
     d.addr1 as real, d.dist1 as real,
     d.c1 as real, d.c2 as real, d.d1 as real, d.d15 as real]
  }

  /** The generated dotted address `a.b.c.d`. */
  function IpAddress(a: nat, b: nat, c: nat, d: nat): string {
    NatToString(a) + "." + NatToString(b) + "." + NatToString(c) + "." + NatToString(d)
  }

  /** The structure both generators promise, whatever the draws:
      five sequence rows of eleven entries repeating the transaction's
      fields, two edges user -> bank -> recipient carrying the amount one
      second apart, and the metadata naming the user node. */
  ghost predicate Shaped(t: MockTransaction) {
    && t.data.transactionAmt > 0.0
    && t.data.productCD in ProductCodes
    && t.data.emailDomain in EmailDomains
    && t.text in Descriptions
    && |t.sequence| == 5
    && (forall k :: 0 <= k < 5 ==> |t.sequence[k]| == 11 && t.sequence[k][1..] == RowTail(t.data))
    && |t.network.edges| == 2
    && |t.network.nodes| == 3
    && t.network.edges[0].amount == t.data.transactionAmt
    && t.network.edges[1].amount == t.data.transactionAmt
    && t.network.edges[0].timestamp == t.data.transactionDT
    && t.network.edges[1].timestamp == t.data.transactionDT + 1
    && t.network.edges[0].target == t.network.edges[1].source
    && t.metadata.userId == t.network.edges[0].source
    && t.network.edges[0].source in t.network.nodes
    && t.network.edges[0].target in t.network.nodes
    && t.network.edges[1].target in t.network.nodes
    && t.metadata.browser in Browsers
  }

  function RowValue(row: seq<real>): Value {
    Arr(seq(|row|, i requires 0 <= i < |row| => Num(row[i])))
  }

  function DataValue(d: TransactionData): (v: Value)
    ensures v.Obj? && "TransactionAmt" in v.fields && v.fields["TransactionAmt"] == Num(d.transactionAmt)
  {
    Obj(map[
      "TransactionAmt" := Num(d.transactionAmt), "ProductCD" := Str(d.productCD),
      "card1" := Num(d.card1 as real), "card2" := Num(d.card2 as real),
      "card3" := Num(d.card3 as real), "card5" := Num(d.card5 as real),
      "addr1" := Num(d.addr1 as real), "dist1" := Num(d.dist1 as real),
      "C1" := Num(d.c1 as real), "C2" := Num(d.c2 as real),
      "D1" := Num(d.d1 as real), "D15" := Num(d.d15 as real),
      "V95" := Num(d.v95), "V96" := Num(d.v96), "V97" := Num(d.v97),
      "V126" := Num(d.v126), "V127" := Num(d.v127),
      "TransactionDT" := Num(d.transactionDT as real), "P_emaildomain" := Str(d.emailDomain)])
  }

  function NodeValue(a: NodeAttrs): Value {
    Obj(map[
      "transaction_count" := Num(a.transactionCount as real), "total_amount" := Num(a.totalAmount),
      "risk_score" := Num(a.riskScore), "age" := Num(a.age as real),
      "is_business" := Num(a.isBusiness as real)])
  }

  function EdgeValue(e: Edge): Value {
    Obj(map[
      "source" := Str(e.source), "target" := Str(e.target), "amount" := Num(e.amount),
      "timestamp" := Num(e.timestamp as real), "frequency" := Num(e.frequency as real),
      "is_international" := Num(e.isInternational as real)])
  }

  function MetadataValue(m: Metadata): Value {
    Obj(map[
      "user_id" := Str(m.userId), "device_fingerprint" := Str(m.deviceFingerprint),
      "ip_address" := Str(m.ipAddress), "browser" := Str(m.browser),
      "login_time" := Str(m.loginTime), "account_age_days" := Num(m.accountAgeDays as real)])
  }

  /** The request body as the JSON object the scoring service receives. */
  function ToValue(t: MockTransaction): (v: Value)
    ensures v.Obj? && v.fields.Keys ==
      {"transaction_data", "transaction_sequence", "transaction_text", "network_data", "metadata"}
    ensures v.fields["transaction_data"].Obj? && "TransactionAmt" in v.fields["transaction_data"].fields
    ensures v.fields["transaction_data"].fields["TransactionAmt"] == Num(t.data.transactionAmt)
    ensures v.fields["transaction_text"] == Str(t.text)
  {
    var seqs := t.sequence;
    var edges := t.network.edges;
    Obj(map[
      "transaction_data" := DataValue(t.data),
      "transaction_sequence" := Arr(seq(|seqs|, i requires 0 <= i < |seqs| => RowValue(seqs[i]))),
      "transaction_text" := Str(t.text),
      "network_data" := Obj(map[
        "nodes" := Obj(map k | k in t.network.nodes :: NodeValue(t.network.nodes[k])),
        "edges" := Arr(seq(|edges|, i requires 0 <= i < |edges| => EdgeValue(edges[i])))]),
      "metadata" := MetadataValue(t.metadata)])
  }
}
