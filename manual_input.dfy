/** The manual-entry wizard: three steps, the form-state handlers, and the
    submission of the assembled request. The scoring call's outcome, the
    clock and the two draws used for the initial ids are inputs. */
module ManualInput {
  import opened Values
  import opened Numbers
  import opened RandomDraws

  // ---------------------------------------------------------------------
  // Field coercions
  // ---------------------------------------------------------------------

  /** `parseFloat(v) || 0`, as a number. */
  function NumberOrZero(v: string): real {
    match ParseFloat(v)
    case Some(x) => x
    case None => 0.0
  }

  /** The number read from the front of `v`, or 0 when there is none. */
  lemma NumberOrZeroCases(v: string)
    ensures ParseFloat(v).Some? ==> NumberOrZero(v) == ParseFloat(v).value
    ensures ParseFloat(v).None? ==> NumberOrZero(v) == 0.0
  {
  }

  /** The value `handleTransactionDataChange` stores for a field. */
  function FieldValue(name: string, v: string): Value {
    if name == "TransactionAmt" then Or(ParseFloatValue(v), Str("")) else Str(v)
  }

  /** Any field but the amount keeps the text; the amount keeps a non-zero
      number and is '' otherwise. */
  lemma FieldValueCases(name: string, v: string)
    ensures name != "TransactionAmt" ==> FieldValue(name, v) == Str(v)
    ensures name == "TransactionAmt" && ParseFloat(v).Some? && ParseFloat(v).value != 0.0
            ==> FieldValue(name, v) == Num(ParseFloat(v).value)
    ensures name == "TransactionAmt" && (ParseFloat(v).None? || ParseFloat(v).value == 0.0)
            ==> FieldValue(name, v) == Str("")
  {
    if name == "TransactionAmt" {
      AmountFieldValue(v);
      NumberOrZeroCases(v);
    }
  }

  // ---------------------------------------------------------------------
  // Form-state updates
  // ---------------------------------------------------------------------

  /** The transaction-data object after one field edit. */
  function UpdateTransactionData(data: map<string, Value>, name: string, v: string): (r: map<string, Value>)
    ensures r.Keys == data.Keys + {name}
    ensures r[name] == FieldValue(name, v)
    ensures forall k :: k in data && k != name ==> r[k] == data[k]
  {
    data[name := FieldValue(name, v)]
  }

  /** Every edge with its amount replaced by `amount`, nothing else changed. */
  function SetEdgeAmounts(edges: seq<map<string, Value>>, amount: Value): (r: seq<map<string, Value>>)
    ensures |r| == |edges|
    ensures forall i :: 0 <= i < |r| ==> r[i].Keys == edges[i].Keys + {"amount"} && r[i]["amount"] == amount
    ensures forall i, k :: 0 <= i < |r| && k in edges[i] && k != "amount" ==> r[i][k] == edges[i][k]
  {
    seq(|edges|, i requires 0 <= i < |edges| => edges[i]["amount" := amount])
  }

  /** The network's edges after an edit of field `name`: only an edit of the
      amount touches them. */
  function SyncEdgeAmounts(edges: seq<map<string, Value>>, name: string, v: string): (r: seq<map<string, Value>>)
    ensures name != "TransactionAmt" ==> r == edges
    ensures name == "TransactionAmt" ==> r == SetEdgeAmounts(edges, Num(NumberOrZero(v)))
  {
    if name == "TransactionAmt" then SetEdgeAmounts(edges, Num(NumberOrZero(v))) else edges
  }

  /** When the entered amount is a non-zero number the form and every edge
      hold that number; otherwise the form holds '' while the edges hold 0. */
  lemma AmountEditAgreement(data: map<string, Value>, edges: seq<map<string, Value>>, v: string)
    ensures var d := UpdateTransactionData(data, "TransactionAmt", v);
      var e := SyncEdgeAmounts(edges, "TransactionAmt", v);
      && "TransactionAmt" in d && |e| == |edges|
      && (forall i :: 0 <= i < |e| ==> "amount" in e[i] && e[i]["amount"] == Num(NumberOrZero(v)))
      && (NumberOrZero(v) != 0.0 ==> d["TransactionAmt"] == Num(NumberOrZero(v)))
      && (NumberOrZero(v) == 0.0 ==> d["TransactionAmt"] == Str(""))
  {
    var d := UpdateTransactionData(data, "TransactionAmt", v);
    var e := SyncEdgeAmounts(edges, "TransactionAmt", v);
    AmountFieldValue(v);
    assert d["TransactionAmt"] == FieldValue("TransactionAmt", v);
    assert e == SetEdgeAmounts(edges, Num(NumberOrZero(v)));
  }

  /** The stored amount is the number entered, or '' for zero and NaN. */
  lemma AmountFieldValue(v: string)
    ensures FieldValue("TransactionAmt", v) == if NumberOrZero(v) != 0.0 then Num(NumberOrZero(v)) else Str("")
  {
    var p := ParseFloat(v);
    if p.Some? {
      assert ParseFloatValue(v) == Num(p.value);
    } else {
      assert ParseFloatValue(v) == NaN;
    }
  }

  /** `parseInt(v)` for `is_business`, `parseFloat(v) || 0` for any other node field. */
  function NodeFieldValue(field: string, v: string): (r: Value)
    ensures field == "is_business" ==> r == ParseIntValue(v)
    ensures field != "is_business" ==> r == Num(NumberOrZero(v))
  {
    if field == "is_business" then ParseIntValue(v) else Or(ParseFloatValue(v), Num(0.0))
  }

  /** The nodes after `handleNetworkDataChange`: a missing node starts empty. */
  function UpdateNode(nodes: map<string, map<string, Value>>, nodeId: string, field: string, v: string)
    : (r: map<string, map<string, Value>>)
    ensures r.Keys == nodes.Keys + {nodeId}
    ensures forall n :: n in nodes && n != nodeId ==> r[n] == nodes[n]
    ensures nodeId in nodes ==> r[nodeId].Keys == nodes[nodeId].Keys + {field}
    ensures nodeId !in nodes ==> r[nodeId].Keys == {field}
    ensures forall k :: nodeId in nodes && k in nodes[nodeId] && k != field ==> r[nodeId][k] == nodes[nodeId][k]
    ensures r[nodeId][field] == NodeFieldValue(field, v)
  {
    var node := if nodeId in nodes then nodes[nodeId] else map[];
    nodes[nodeId := node[field := NodeFieldValue(field, v)]]
  }

  /** The edges after `handleEdgeChange`. */
  function UpdateEdge(edges: seq<map<string, Value>>, index: int, field: string, v: string)
    : (r: seq<map<string, Value>>)
    ensures |r| == |edges|
    ensures forall i :: 0 <= i < |r| && i != index ==> r[i] == edges[i]
    ensures 0 <= index < |edges| ==> r[index].Keys == edges[index].Keys + {field}
    ensures forall k :: 0 <= index < |edges| && k in edges[index] && k != field ==> r[index][k] == edges[index][k]
    ensures 0 <= index < |edges| && field == "is_international" ==> r[index][field] == ParseIntValue(v)
    ensures 0 <= index < |edges| && field != "is_international" ==> r[index][field] == Str(v)
  {
    seq(|edges|, i requires 0 <= i < |edges| =>
      if i == index then
        edges[i][field := if field == "is_international" then ParseIntValue(v) else Str(v)]
      else edges[i])
  }

  /** An index that names no edge changes nothing. */
  lemma UpdateEdgeOutOfRange(edges: seq<map<string, Value>>, index: int, field: string, v: string)
    requires index < 0 || index >= |edges|
    ensures UpdateEdge(edges, index, field, v) == edges
  {
  }

  /** The metadata after `handleMetadataChange`. */
  function UpdateMetadata(m: map<string, Value>, name: string, v: string): (r: map<string, Value>)
    ensures r.Keys == m.Keys + {name}
    ensures forall k :: k in m && k != name ==> r[k] == m[k]
    ensures name != "account_age_days" ==> r[name] == Str(v)
    ensures name == "account_age_days" && ParseIntAuto(v).Some? ==> r[name] == Num(ParseIntAuto(v).value as real)
    ensures name == "account_age_days" && ParseIntAuto(v).None? ==> r[name] == Num(0.0)
  {
    m[name := if name == "account_age_days" then Or(ParseIntValue(v), Num(0.0)) else Str(v)]
  }

  /** The integer fields are read by `parseInt` without a radix, so a hex
      literal counts: "0x10" is 16 for `is_business`, `is_international`
      and `account_age_days` alike. */
  lemma HexFieldsRead(edges: seq<map<string, Value>>, index: int, m: map<string, Value>)
    requires 0 <= index < |edges|
    ensures NodeFieldValue("is_business", "0x10") == Num(16.0)
    ensures UpdateEdge(edges, index, "is_international", "0x10")[index]["is_international"] == Num(16.0)
    ensures UpdateMetadata(m, "account_age_days", "0x10")["account_age_days"] == Num(16.0)
  {
    HexSixteen();
  }

  /** `parseFloat(v) || 0` for a sequence cell. */
  function CellValue(v: string): real {
    NumberOrZero(v)
  }

  /** The sequence after writing one cell. */
  function SequenceAfterChange(rows: seq<seq<real>>, index: nat, position: nat, v: string): (r: seq<seq<real>>)
    requires index < |rows| && position < |rows[index]|
    ensures |r| == |rows|
    ensures forall k :: 0 <= k < |r| && k != index ==> r[k] == rows[k]
    ensures |r[index]| == |rows[index]| && r[index][position] == CellValue(v)
    ensures forall j :: 0 <= j < |r[index]| && j != position ==> r[index][j] == rows[index][j]
  {
    rows[index := rows[index][position := CellValue(v)]]
  }

  // ---------------------------------------------------------------------
  // Payload and submission
  // ---------------------------------------------------------------------

  function RowValue(row: seq<real>): (v: Value)
    ensures v.Arr? && |v.items| == |row|
    ensures forall k :: 0 <= k < |row| ==> v.items[k] == Num(row[k])
  {
    Arr(seq(|row|, i requires 0 <= i < |row| => Num(row[i])))
  }

  /** The request body `handleSubmit` sends. */
  function Payload(data: map<string, Value>, rows: seq<seq<real>>, text: string,
                   nodes: map<string, map<string, Value>>, edges: seq<map<string, Value>>,
                   metadata: map<string, Value>): (p: Value)
    requires "TransactionAmt" in data
    ensures p.Obj? && p.fields.Keys == {"transaction_data", "transaction_sequence", "transaction_text", "network_data", "metadata"}
  {
    var synced := SetEdgeAmounts(edges, data["TransactionAmt"]);
    Obj(map[
      "transaction_data" := Obj(data),
      "transaction_sequence" := Arr(seq(|rows|, i requires 0 <= i < |rows| => RowValue(rows[i]))),
      "transaction_text" := Str(text),
      "network_data" := Obj(map[
        "nodes" := Obj(map n | n in nodes :: Obj(nodes[n])),
        "edges" := Arr(seq(|synced|, i requires 0 <= i < |synced| => Obj(synced[i])))]),
      "metadata" := Obj(metadata)])
  }

  /** The request carries the five parts the scoring service reads, with the
      form's fields, description and metadata as entered. */
  lemma PayloadFields(data: map<string, Value>, rows: seq<seq<real>>, text: string,
                      nodes: map<string, map<string, Value>>, edges: seq<map<string, Value>>,
                      metadata: map<string, Value>)
    requires "TransactionAmt" in data
    ensures var p := Payload(data, rows, text, nodes, edges, metadata);
      && p.Obj? && p.fields.Keys ==
           {"transaction_data", "transaction_sequence", "transaction_text", "network_data", "metadata"}
      && p.fields["transaction_data"] == Obj(data)
      && p.fields["transaction_text"] == Str(text)
      && p.fields["metadata"] == Obj(metadata)
      && p.fields["transaction_sequence"].Arr? && |p.fields["transaction_sequence"].items| == |rows|
      && (forall i :: 0 <= i < |rows| ==> p.fields["transaction_sequence"].items[i] == RowValue(rows[i]))
      && p.fields["network_data"].Obj? && "nodes" in p.fields["network_data"].fields
      && p.fields["network_data"].fields["nodes"].Obj?
      && p.fields["network_data"].fields["nodes"].fields.Keys == nodes.Keys
      && (forall n :: n in nodes ==> p.fields["network_data"].fields["nodes"].fields[n] == Obj(nodes[n]))
  {
  }

  /** Whatever amounts the edges held, the request's edges carry the form's
      `TransactionAmt`, one per edge. */
  lemma PayloadEdgesCarryAmount(data: map<string, Value>, rows: seq<seq<real>>, text: string,
                                nodes: map<string, map<string, Value>>, edges: seq<map<string, Value>>,
                                metadata: map<string, Value>)
    requires "TransactionAmt" in data
    ensures var es := Payload(data, rows, text, nodes, edges, metadata).fields["network_data"].fields["edges"];
      es.Arr? && |es.items| == |edges|
      && forall i :: 0 <= i < |es.items| ==>
           es.items[i].Obj? && "amount" in es.items[i].fields
           && es.items[i].fields["amount"] == data["TransactionAmt"]
  {
  }

  /** The scoring call's outcome; `detail` is `err.response?.data?.detail`. */
  datatype SubmitOutcome = Scored(data: map<string, Value>) | Failed(detail: Value)

  const GenericError: string := "An error occurred while processing the transaction"

  /** `{...response.data, timestamp, transaction_amount, transaction_text}`. */
  function ResultWithTimestamp(resp: map<string, Value>, nowIso: string, amount: Value, text: string)
    : map<string, Value>
  {
    resp + map["timestamp" := Str(nowIso), "transaction_amount" := amount, "transaction_text" := Str(text)]
  }

  /** The stored result keeps every field of the response except the three
      it adds, which the form supplies. */
  lemma ResultWithTimestampFields(resp: map<string, Value>, nowIso: string, amount: Value, text: string)
    ensures var r := ResultWithTimestamp(resp, nowIso, amount, text);
      && r.Keys == resp.Keys + {"timestamp", "transaction_amount", "transaction_text"}
      && r["timestamp"] == Str(nowIso) && r["transaction_amount"] == amount
      && r["transaction_text"] == Str(text)
      && forall k :: k in resp && k !in {"timestamp", "transaction_amount", "transaction_text"} ==> r[k] == resp[k]
  {
  }

  // ---------------------------------------------------------------------
  // Steps
  // ---------------------------------------------------------------------

  const LastStep: int := 2

  /** Next is rendered only away from the review step. */
  predicate NextShown(step: int) {
    step != LastStep
  }

  /** Back is disabled on the first step; the review step has its own Back. */
  predicate BackEnabled(step: int) {
    step != 0
  }

  datatype Press = PressNext | PressBack

  predicate Enabled(step: int, p: Press) {
    match p
    case PressNext => NextShown(step)
    case PressBack => BackEnabled(step)
  }

  function Step(step: int, p: Press): int {
    match p
    case PressNext => step + 1
    case PressBack => step - 1
  }

  /** The step after a run of presses, each on an enabled button. */
  function StepAfter(step: int, presses: seq<Press>): int
    decreases |presses|
  {
    if presses == [] then step else StepAfter(Step(step, presses[0]), presses[1..])
  }

  predicate AllEnabled(step: int, presses: seq<Press>)
    decreases |presses|
  {
    presses == [] || (Enabled(step, presses[0]) && AllEnabled(Step(step, presses[0]), presses[1..]))
  }

  /** Whatever the user presses, the wizard stays on one of its three steps. */
  lemma {:induction false} StepsStayInRange(step: int, presses: seq<Press>)
    requires 0 <= step <= LastStep && AllEnabled(step, presses)
    ensures 0 <= StepAfter(step, presses) <= LastStep
    decreases |presses|
  {
    if presses != [] {
      StepsStayInRange(Step(step, presses[0]), presses[1..]);
    }
  }

  // ---------------------------------------------------------------------
  // The page component
  // ---------------------------------------------------------------------

  /** The rows of a grid as values. */
  function GridValues(g: array2<real>): (r: seq<seq<real>>)
    reads g
    ensures |r| == g.Length0
    ensures forall i :: 0 <= i < |r| ==> |r[i]| == g.Length1
    ensures forall i, j :: 0 <= i < g.Length0 && 0 <= j < g.Length1 ==> r[i][j] == g[i, j]
  {
    seq(g.Length0, i requires 0 <= i < g.Length0 reads g =>
      seq(g.Length1, j requires 0 <= j < g.Length1 reads g => g[i, j]))
  }

  /** Two 5 x 11 grids that differ at most in one cell, which holds `x`. */
  lemma GridCellWritten(before: seq<seq<real>>, after: seq<seq<real>>, index: nat, position: nat, x: real)
    requires |before| == |after| == 5 && index < 5 && position < 11
    requires forall i :: 0 <= i < 5 ==> |before[i]| == |after[i]| == 11
    requires forall i, j :: 0 <= i < 5 && 0 <= j < 11 && (i != index || j != position) ==> after[i][j] == before[i][j]
    requires after[index][position] == x
    ensures after == before[index := before[index][position := x]]
  {
    var expected := before[index := before[index][position := x]];
    forall i | 0 <= i < 5
      ensures after[i] == expected[i]
    {
      assert |after[i]| == |expected[i]| == 11;
    }
  }

  const TransactionFields: seq<string> := [
    "TransactionAmt", "ProductCD", "card1", "card2", "card3", "card5", "addr1", "dist1",
    "C1", "C2", "D1", "D15", "V95", "V96", "V97", "V126", "V127", "TransactionDT", "P_emaildomain"
  ]

  function InitialTransactionData(nowMillis: int): (d: map<string, Value>)
    ensures "TransactionAmt" in d && d["TransactionAmt"] == Str("")
    ensures d.Keys == set k | k in TransactionFields
  {
    var empty := map k | k in TransactionFields :: Str("");
    empty["ProductCD" := Str("H")]["TransactionDT" := Num((nowMillis / 1000) as real)]
  }

  function NodeAttrs(count: real, total: real, risk: real, age: real, business: real): map<string, Value> {
    map["transaction_count" := Num(count), "total_amount" := Num(total), "risk_score" := Num(risk),
        "age" := Num(age), "is_business" := Num(business)]
  }

  function EdgeAttrs(source: string, target: string, timestamp: int): map<string, Value> {
    map["source" := Str(source), "target" := Str(target), "amount" := Num(0.0),
        "timestamp" := Num(timestamp as real), "frequency" := Num(1.0), "is_international" := Num(0.0)]
  }

  /** The three nodes the form starts with. */
  function InitialNodes(): (n: map<string, map<string, Value>>)
    ensures n.Keys == {"user", "recipient", "bank"}
  {
    map[
      "user" := NodeAttrs(1.0, 0.0, 0.5, 30.0, 0.0),
      "recipient" := NodeAttrs(1.0, 0.0, 0.5, 365.0, 1.0),
      "bank" := NodeAttrs(1000.0, 1000000.0, 0.3, 3650.0, 1.0)]
  }

  /** The two edges the form starts with, user -> bank -> recipient, one
      second apart, with no amount yet. */
  function InitialEdges(nowMillis: int): (e: seq<map<string, Value>>)
    ensures |e| == 2
    ensures forall k :: 0 <= k < 2 ==>
      e[k].Keys == {"source", "target", "amount", "timestamp", "frequency", "is_international"}
    ensures e[0]["source"] == Str("user") && e[0]["target"] == e[1]["source"] == Str("bank")
    ensures e[1]["target"] == Str("recipient")
    ensures e[0]["amount"] == e[1]["amount"] == Num(0.0)
  {
    var now := nowMillis / 1000;
    [EdgeAttrs("user", "bank", now), EdgeAttrs("bank", "recipient", now + 1)]
  }

  /** The metadata the form starts with: a random user and device id. */
  function InitialMetadata(nowIso: string, userDraw: real, deviceDraw: real): (m: map<string, Value>)
    requires IsDraw(userDraw) && IsDraw(deviceDraw)
    ensures m.Keys == {"user_id", "device_fingerprint", "ip_address", "browser", "login_time", "account_age_days"}
    ensures m["login_time"] == Str(nowIso)
  {
    map[
      "user_id" := Str("user_" + NatToString(FloorScale(userDraw, 1000))),
      "device_fingerprint" := Str("device_" + NatToString(FloorScale(deviceDraw, 1000))),
      "ip_address" := Str("192.168.1.1"), "browser" := Str("Chrome"),
      "login_time" := Str(nowIso), "account_age_days" := Num(30.0)]
  }

  class ManualEntry {
    var activeStep: int
    var loading: bool
    var error: Value
    var transactionData: map<string, Value>
    /** Five rows of eleven cells, written in place by `handleSequenceChange`. */
    var transactionSequence: array2<real>
    var transactionText: string
    var nodes: map<string, map<string, Value>>
    var edges: seq<map<string, Value>>
    var metadata: map<string, Value>
    /** Requests sent, results passed to `addResult`, and the last navigation. */
    var sent: seq<Value>
    var added: seq<map<string, Value>>
    var navigatedTo: Option<string>

    ghost predicate Valid()
      reads this
    {
      && 0 <= activeStep <= LastStep
      && "TransactionAmt" in transactionData
      && transactionSequence.Length0 == 5 && transactionSequence.Length1 == 11
    }

    /** The sequence rows as values. */
    function SequenceValues(): seq<seq<real>>
      reads this, transactionSequence
    {
      GridValues(transactionSequence)
    }

    constructor (nowMillis: int, nowIso: string, userDraw: real, deviceDraw: real)
      requires IsDraw(userDraw) && IsDraw(deviceDraw)
      ensures Valid() && fresh(transactionSequence)
      ensures activeStep == 0 && !loading && error == Str("")
      ensures transactionData == InitialTransactionData(nowMillis)
      ensures forall k, j :: 0 <= k < 5 && 0 <= j < 11 ==> transactionSequence[k, j] == 0.0
      ensures nodes == InitialNodes() && edges == InitialEdges(nowMillis)
      ensures metadata == InitialMetadata(nowIso, userDraw, deviceDraw)
      ensures transactionText == ""
      ensures sent == [] && added == [] && navigatedTo == None
    {
      activeStep, loading, error := 0, false, Str("");
      transactionData := InitialTransactionData(nowMillis);
      transactionSequence := new real[5, 11]((_, _) => 0.0);
      transactionText := "";
      nodes := InitialNodes();
      edges := InitialEdges(nowMillis);
      metadata := InitialMetadata(nowIso, userDraw, deviceDraw);
      sent, added, navigatedTo := [], [], None;
    }

    /** `handleTransactionDataChange`: one field, and for the amount every edge. */
    method HandleTransactionDataChange(name: string, v: string)
      requires Valid()
      modifies this`transactionData, this`edges
      ensures Valid()
      ensures transactionData == UpdateTransactionData(old(transactionData), name, v)
      ensures edges == SyncEdgeAmounts(old(edges), name, v)
    {
      var data := UpdateTransactionData(transactionData, name, v);
      assert "TransactionAmt" in data;
      transactionData := data;
      edges := SyncEdgeAmounts(edges, name, v);
    }

    /** The description field. */
    method SetTransactionText(text: string)
      requires Valid()
      modifies this`transactionText
      ensures Valid() && transactionText == text
    {
      transactionText := text;
    }

    /** `handleSequenceChange`: writes one cell in place. */
    method HandleSequenceChange(index: nat, position: nat, v: string)
      requires Valid() && index < 5 && position < 11
      modifies transactionSequence
      ensures Valid()
      ensures SequenceValues() == SequenceAfterChange(old(SequenceValues()), index, position, v)
    {
      ghost var before := SequenceValues();
      var x := CellValue(v);
      transactionSequence[index, position] := x;
      ghost var after := SequenceValues();
      assert forall i, j :: 0 <= i < 5 && 0 <= j < 11 && (i != index || j != position) ==>
        after[i][j] == before[i][j];
      GridCellWritten(before, after, index, position, x);
    }

    /** `handleNetworkDataChange`. */
    method HandleNetworkDataChange(nodeId: string, field: string, v: string)
      requires Valid()
      modifies this`nodes
      ensures Valid() && nodes == UpdateNode(old(nodes), nodeId, field, v)
    {
      nodes := UpdateNode(nodes, nodeId, field, v);
    }

    /** `handleEdgeChange`. */
    method HandleEdgeChange(index: int, field: string, v: string)
      requires Valid()
      modifies this`edges
      ensures Valid() && edges == UpdateEdge(old(edges), index, field, v)
    {
      edges := UpdateEdge(edges, index, field, v);
    }

    /** `handleMetadataChange`. */
    method HandleMetadataChange(name: string, v: string)
      requires Valid()
      modifies this`metadata
      ensures Valid() && metadata == UpdateMetadata(old(metadata), name, v)
    {
      metadata := UpdateMetadata(metadata, name, v);
    }

    /** `handleNext`, reached through the Next button. */
    method HandleNext()
      requires Valid() && NextShown(activeStep)
      modifies this`activeStep
      ensures Valid() && activeStep == old(activeStep) + 1
    {
      activeStep := activeStep + 1;
    }

    /** `handleBack`, reached through an enabled Back button. */
    method HandleBack()
      requires Valid() && BackEnabled(activeStep)
      modifies this`activeStep
      ensures Valid() && activeStep == old(activeStep) - 1
    {
      activeStep := activeStep - 1;
    }

    /** `handleSubmit` with the request already resolved to `outcome`. The
        form itself, the step and the sequence grid are left alone. */
    method HandleSubmit(outcome: SubmitOutcome, nowIso: string)
      requires Valid()
      modifies this`sent, this`added, this`navigatedTo, this`error, this`loading
      ensures Valid() && !loading
      ensures sent == old(sent) + [old(Payload(transactionData, SequenceValues(), transactionText, nodes, edges, metadata))]
      ensures outcome.Scored? ==>
        && added == old(added) + [ResultWithTimestamp(outcome.data, nowIso, old(transactionData["TransactionAmt"]), old(transactionText))]
        && navigatedTo == Some("/results")
        && error == Str("")
      ensures outcome.Failed? ==>
        && added == old(added) && navigatedTo == old(navigatedTo)
        && error == Or(outcome.detail, Str(GenericError)) && Truthy(error)
    {
      // `loading` is true only while the request is awaited; the model
      // resolves the request at once, so only its final value is written.
      var payload := Payload(transactionData, GridValues(transactionSequence), transactionText, nodes, edges, metadata);
      match outcome {
        case Scored(data) =>
          SubmitSucceeded(payload, ResultWithTimestamp(data, nowIso, transactionData["TransactionAmt"], transactionText));
        case Failed(detail) =>
          SubmitFailed(payload, Or(detail, Str(GenericError)));
      }
    }

    /** A scored request: record the payload and the result, then go to
        the results page. */
    method SubmitSucceeded(payload: Value, result: map<string, Value>)
      requires Valid()
      modifies this`sent, this`added, this`navigatedTo, this`error, this`loading
      ensures Valid() && !loading
      ensures sent == old(sent) + [payload] && added == old(added) + [result]
      ensures navigatedTo == Some("/results") && error == Str("")
    {
      sent, added, navigatedTo, error, loading := sent + [payload], added + [result], Some("/results"), Str(""), false;
    }

    /** A failed request: record the payload and show the error. */
    method SubmitFailed(payload: Value, message: Value)
      requires Valid()
      modifies this`sent, this`error, this`loading
      ensures Valid() && !loading
      ensures sent == old(sent) + [payload] && error == message
    {
      sent, error, loading := sent + [payload], message, false;
    }
  }
}
