/** The automated transaction feed page: a synthetic transaction generator
    and a start/stop controller that scores one transaction per timer tick,
    keeps the ten most recent results and stops itself on the first failure.

    Random draws, the clock and the scoring call's outcome are inputs.
    Posting a transaction and receiving its response are separate events:
    posting changes nothing on the page, and a response may arrive after a
    stop, after a restart, or after a later request's response. A tick is
    the special case of a post whose response arrives before any other
    event. */
module AutomatedFeed {
  import opened Values
  import opened RandomDraws
  import opened Transactions
  import ResultsPage

  // ---------------------------------------------------------------------
  // Synthetic transactions
  // ---------------------------------------------------------------------

  /** `Math.random() * 9990 + 10`. */
  function FeedAmount(d: seq<real>): real
    requires DrawsFit(d)
  {
    d[0] * 9990.0 + 10.0
  }

  function FeedText(d: seq<real>): string
    requires DrawsFit(d)
  {
    Choice(d[23], Descriptions)
  }

  function TransactionDataOf(d: seq<real>, nowMillis: int): TransactionData
    requires DrawsFit(d)
  {
    TransactionData(
      transactionAmt := FeedAmount(d),
      productCD := Choice(d[17], ProductCodes),
      card1 := FloorScale(d[1], 9000) + 1000,
      card2 := FloorScale(d[2], 900) + 100,
      card3 := FloorScale(d[3], 900) + 100,
      card5 := FloorScale(d[4], 900) + 100,
      addr1 := FloorScale(d[5], 900) + 100,
      dist1 := FloorScale(d[6], 5000),
      c1 := FloorScale(d[7], 10),
      c2 := FloorScale(d[8], 5),
      d1 := FloorScale(d[9], 30),
      d15 := FloorScale(d[10], 5),
      v95 := d[11] * 4.0 - 2.0,
      v96 := d[12] * 4.0 - 2.0,
      v97 := d[13] * 4.0 - 2.0,
      v126 := d[14] * 4.0 - 2.0,
      v127 := d[15] * 4.0 - 2.0,
      transactionDT := nowMillis / 1000,
      emailDomain := Choice(d[16], EmailDomains))
  }

  /** The five previous-transaction rows: a fresh amount, then the fields. */
  function SequenceOf(d: seq<real>, data: TransactionData): (rows: seq<seq<real>>)
    requires DrawsFit(d)
    ensures |rows| == 5
  {
    seq(5, k requires 0 <= k < 5 => [d[18 + k] * 2000.0 + 50.0] + RowTail(data))
  }

  function UserId(d: seq<real>): string requires DrawsFit(d) {
    "user_" + NatToString(FloorScale(d[24], 1000))
  }

  function RecipientId(d: seq<real>): string requires DrawsFit(d) {
    "recipient_" + NatToString(FloorScale(d[25], 1000))
  }

  function BankId(d: seq<real>): string requires DrawsFit(d) {
    "bank_" + NatToString(FloorScale(d[26], 100))
  }

  function NetworkOf(d: seq<real>, amount: real, dt: int): Network
    requires DrawsFit(d)
  {
    Network(
      map[
        UserId(d) := NodeAttrs(FloorScale(d[27], 50) + 1, d[28] * 50000.0, d[29] * 0.9,
                               FloorScale(d[30], 1000) + 1, Flag(d[31], 0.7)),
        RecipientId(d) := NodeAttrs(FloorScale(d[32], 500) + 1, d[33] * 1000000.0, d[34] * 0.9,
                                    FloorScale(d[35], 3650) + 30, Flag(d[36], 0.3)),
        BankId(d) := NodeAttrs(FloorScale(d[37], 10000) + 1000, d[38] * 100000000.0, d[39] * 0.5,
                               FloorScale(d[40], 10000) + 365, 1)],
      [Edge(UserId(d), BankId(d), amount, dt, FloorScale(d[41], 100) + 1, Flag(d[42], 0.7)),
       Edge(BankId(d), RecipientId(d), amount, dt + 1, FloorScale(d[43], 100) + 1, Flag(d[44], 0.7))])
  }

  function MetadataOf(d: seq<real>, nowIso: string): Metadata
    requires DrawsFit(d)
  {
    Metadata(
      UserId(d),
      "device_" + NatToString(FloorScale(d[45], 10000)),
      IpAddress(FloorScale(d[46], 255), FloorScale(d[47], 255), FloorScale(d[48], 255), FloorScale(d[49], 255)),
      Choice(d[50], Browsers),
      nowIso,
      FloorScale(d[51], 1000) + 1)
  }

  /** The ranges the page's generator gives each drawn field. */
  ghost predicate FeedRanges(t: MockTransaction) {
    && 10.0 <= t.data.transactionAmt < 10000.0
    && 1000 <= t.data.card1 <= 9999
    && 100 <= t.data.card2 <= 999 && 100 <= t.data.card3 <= 999 && 100 <= t.data.card5 <= 999
    && 100 <= t.data.addr1 <= 999
    && 0 <= t.data.dist1 <= 4999
    && 0 <= t.data.c1 <= 9 && 0 <= t.data.c2 <= 4
    && 0 <= t.data.d1 <= 29 && 0 <= t.data.d15 <= 4
    && -2.0 <= t.data.v95 < 2.0 && -2.0 <= t.data.v96 < 2.0 && -2.0 <= t.data.v97 < 2.0
    && -2.0 <= t.data.v126 < 2.0 && -2.0 <= t.data.v127 < 2.0
    && |t.sequence| == 5
    && (forall k :: 0 <= k < |t.sequence| ==> |t.sequence[k]| == 11 && 50.0 <= t.sequence[k][0] < 2050.0)
  }

  /** What `generateMockTransaction` returns for the draws `d`. */
  function MockTransactionOf(d: seq<real>, nowMillis: int, nowIso: string): (t: MockTransaction)
    requires DrawsFit(d)
    ensures t.data == TransactionDataOf(d, nowMillis) && t.data.transactionAmt == FeedAmount(d)
    ensures t.text == FeedText(d) && t.text in Descriptions
  {
    var data := TransactionDataOf(d, nowMillis);
    MockTransaction(data, SequenceOf(d, data), FeedText(d),
                    NetworkOf(d, data.transactionAmt, data.transactionDT), MetadataOf(d, nowIso))
  }

  /** The three generated node ids are distinct, so the network has three nodes. */
  lemma NodeIdsDistinct(d: seq<real>)
    requires DrawsFit(d)
    ensures UserId(d) != BankId(d) && UserId(d) != RecipientId(d) && BankId(d) != RecipientId(d)
  {
    PrefixesDiffer("user_", "bank_", NatToString(FloorScale(d[24], 1000)), NatToString(FloorScale(d[26], 100)));
    PrefixesDiffer("user_", "recipient_", NatToString(FloorScale(d[24], 1000)), NatToString(FloorScale(d[25], 1000)));
    PrefixesDiffer("bank_", "recipient_", NatToString(FloorScale(d[26], 100)), NatToString(FloorScale(d[25], 1000)));
  }

  /** Whatever the draws, the page's generator has the structure shared
      with the backend generator. */
  lemma MockTransactionShaped(d: seq<real>, nowMillis: int, nowIso: string)
    requires DrawsFit(d)
    ensures Shaped(MockTransactionOf(d, nowMillis, nowIso))
  {
    var data := TransactionDataOf(d, nowMillis);
    NetworkOfShaped(d, data.transactionAmt, data.transactionDT);
    SequenceOfShaped(d, data);
  }

  /** The network: two edges user to bank to recipient carrying the amount,
      over three distinct nodes. */
  lemma NetworkOfShaped(d: seq<real>, amount: real, dt: int)
    requires DrawsFit(d)
    ensures var n := NetworkOf(d, amount, dt);
      && |n.edges| == 2 && |n.nodes| == 3
      && n.edges[0].amount == amount && n.edges[1].amount == amount
      && n.edges[0].timestamp == dt && n.edges[1].timestamp == dt + 1
      && n.edges[0].target == n.edges[1].source && n.edges[0].source == UserId(d)
      && n.edges[0].source in n.nodes && n.edges[0].target in n.nodes && n.edges[1].target in n.nodes
  {
    NodeIdsDistinct(d);
    var nodes := NetworkOf(d, amount, dt).nodes;
    assert nodes.Keys == {UserId(d), RecipientId(d), BankId(d)};
    assert |nodes.Keys| == 3;
  }

  /** Each sequence row is a fresh amount followed by the transaction's fields. */
  lemma SequenceOfShaped(d: seq<real>, data: TransactionData)
    requires DrawsFit(d)
    ensures forall k :: 0 <= k < 5 ==>
      |SequenceOf(d, data)[k]| == 11 && SequenceOf(d, data)[k][1..] == RowTail(data)
  {
    forall k | 0 <= k < 5
      ensures |SequenceOf(d, data)[k]| == 11 && SequenceOf(d, data)[k][1..] == RowTail(data)
    {
      assert SequenceOf(d, data)[k] == [d[18 + k] * 2000.0 + 50.0] + RowTail(data);
    }
  }

  /** Whatever the draws, every field keeps the range its formula gives. */
  lemma MockTransactionInRange(d: seq<real>, nowMillis: int, nowIso: string)
    requires DrawsFit(d)
    ensures FeedRanges(MockTransactionOf(d, nowMillis, nowIso))
  {
    var t := MockTransactionOf(d, nowMillis, nowIso);
    forall k | 0 <= k < 5
      ensures |t.sequence[k]| == 11 && 50.0 <= t.sequence[k][0] < 2050.0
    {
      assert t.sequence[k] == [d[18 + k] * 2000.0 + 50.0] + RowTail(t.data);
      var r := d[18 + k];
      assert r * 2000.0 < 1.0 * 2000.0;
    }
    var r0 := d[0];
    assert r0 * 9990.0 < 1.0 * 9990.0;
  }

  /** `generateMockTransaction`, with its loop pushing the sequence rows. */
  method GenerateMockTransaction(d: seq<real>, nowMillis: int, nowIso: string) returns (t: MockTransaction)
    requires DrawsFit(d)
    ensures t == MockTransactionOf(d, nowMillis, nowIso)
  {
    var data := TransactionDataOf(d, nowMillis);
    var transactionSequence: seq<seq<real>> := [];
    var i := 0;
    while i < 5
      invariant 0 <= i <= 5
      invariant transactionSequence == SequenceOf(d, data)[..i]
    {
      var seqAmount := d[18 + i] * 2000.0 + 50.0;
      transactionSequence := transactionSequence + [[seqAmount] + RowTail(data)];
      i := i + 1;
    }
    assert transactionSequence == SequenceOf(d, data);
    t := MockTransaction(data, transactionSequence, FeedText(d),
                         NetworkOf(d, data.transactionAmt, data.transactionDT), MetadataOf(d, nowIso));
  }

  // ---------------------------------------------------------------------
  // Risk colour
  // ---------------------------------------------------------------------

  /** The page's own `getRiskColor`. */
  function RiskColor(risk: real): (c: ResultsPage.Color)
    ensures c == ResultsPage.SuccessMain <==> risk < 0.3
    ensures c == ResultsPage.ErrorMain <==> risk >= 0.7
  {
    if risk < 0.3 then ResultsPage.SuccessMain
    else if risk < 0.7 then ResultsPage.WarningMain
    else ResultsPage.ErrorMain
  }

  /** The feed page colours a result exactly as the results page does. */
  lemma RiskColorAgreesWithResultsPage(risk: real)
    ensures RiskColor(risk) == ResultsPage.RiskColor(risk)
    ensures RiskColor(risk) == ResultsPage.LevelColor(ResultsPage.RiskLevel(risk))
  {
    ResultsPage.ColorMatchesLevel(risk);
  }

  // ---------------------------------------------------------------------
  // The controller as a state machine
  // ---------------------------------------------------------------------

  /** The scoring call's outcome. `detail` is `err.response?.data?.detail`,
      Null when there was no response or no such field. */
  datatype ScoringOutcome = Scored(data: map<string, Value>) | Failed(detail: Value)

  const GenericError: string := "An error occurred while processing the transaction"

  /** A scoring request on its way: the posted transaction's amount and
      text, which the callback keeps until the response arrives, and the
      data source that the sending callback captured. */
  datatype Request = Request(amount: real, text: string, source: string)

  /** The request that posting `t` from a session with this source leaves. */
  function RequestOf(t: MockTransaction, source: string): Request {
    Request(t.data.transactionAmt, t.text, source)
  }

  /** Everything a tick consumes whose response arrives before any other
      event: the posted transaction's amount and text, the arrival time and
      the outcome. */
  datatype TickInput = TickInput(amount: real, text: string, nowIso: string, outcome: ScoringOutcome)

  /** The page's state. `added` lists, in call order, the values passed to
      the parent's `addResult`; `liveTimers` are the installed intervals not
      yet cleared; `sessionSource` is the data source the running session's
      callbacks captured when the feed was started; `inFlight` are the
      requests posted whose responses have not arrived yet, oldest first. */
  datatype FeedState = FeedState(
    apiSource: string,
    isRunning: bool,
    progress: int,
    transactions: seq<map<string, Value>>,
    error: Value,
    intervalRef: Option<nat>,
    liveTimers: set<nat>,
    nextTimer: nat,
    sessionSource: string,
    added: seq<map<string, Value>>,
    inFlight: seq<Request>)

  function InitialState(): FeedState {
    FeedState("plaid", false, 0, [], Str(""), None, {}, 1, "plaid", [], [])
  }

  ghost predicate Invariant(s: FeedState) {
    && s.progress in {0, 20, 40, 60, 80}
    && |s.transactions| <= 10
    && s.nextTimer >= 1
    && (s.intervalRef.Some? <==> s.isRunning)
    && (s.intervalRef.Some? ==> 1 <= s.intervalRef.value < s.nextTimer)
    && s.liveTimers <= (if s.intervalRef.Some? then {s.intervalRef.value} else {})
  }

  const InfoKeys: set<string> := {"timestamp", "transaction_amount", "transaction_text", "api_source"}

  /** `{...response.data, timestamp, transaction_amount, transaction_text, api_source}`. */
  function ResultWithInfo(data: map<string, Value>, amount: real, text: string, nowIso: string, source: string)
    : (r: map<string, Value>)
    ensures r.Keys == data.Keys + InfoKeys
    ensures r["timestamp"] == Str(nowIso)
    ensures r["transaction_amount"] == Num(amount)
    ensures r["transaction_text"] == Str(text)
    ensures r["api_source"] == Str(source)
    ensures forall k :: k in data && k !in InfoKeys ==> r[k] == data[k]
  {
    data + map["timestamp" := Str(nowIso), "transaction_amount" := Num(amount),
               "transaction_text" := Str(text), "api_source" := Str(source)]
  }

  /** The value a scored request stores: the response merged with the sent
      transaction's amount and text, the arrival time and the captured source. */
  function RequestResult(p: Request, nowIso: string, data: map<string, Value>): map<string, Value> {
    ResultWithInfo(data, p.amount, p.text, nowIso, p.source)
  }

  /** The request a tick posts from the session whose source is `source`. */
  function TickRequest(source: string, i: TickInput): Request {
    Request(i.amount, i.text, source)
  }

  function TickResult(source: string, i: TickInput): map<string, Value>
    requires i.outcome.Scored?
  {
    RequestResult(TickRequest(source, i), i.nowIso, i.outcome.data)
  }

  /** The stored amount and text are those of the transaction that was
      sent, the source is the one captured when it was sent, and the time
      is that of the arrival. */
  lemma RequestResultDescribesTransaction(draws: seq<real>, nowMillis: int, sentIso: string,
                                          source: string, nowIso: string, data: map<string, Value>)
    requires DrawsFit(draws)
    ensures var r := RequestResult(RequestOf(MockTransactionOf(draws, nowMillis, sentIso), source), nowIso, data);
      && r["transaction_amount"] == Num(FeedAmount(draws))
      && r["transaction_text"] == Str(FeedText(draws))
      && r["api_source"] == Str(source)
      && r["timestamp"] == Str(nowIso)
  {
  }

  /** The generated transaction's amount and text, as a result stores them. */
  lemma GeneratedAmountAndText(draws: seq<real>, nowMillis: int, nowIso: string, t: MockTransaction)
    requires DrawsFit(draws) && t == MockTransactionOf(draws, nowMillis, nowIso)
    ensures t.data.transactionAmt == FeedAmount(draws) && t.text == FeedText(draws)
  {
  }

  /** `[x, ...history].slice(0, 10)`. */
  function Recent<T>(x: T, history: seq<T>): (r: seq<T>)
    ensures |r| == if |history| < 10 then |history| + 1 else 10
    ensures r[0] == x
    ensures forall k :: 1 <= k < |r| ==> r[k] == history[k - 1]
  {
    var all := [x] + history;
    if |all| <= 10 then all else all[..10]
  }

  /** `q` without its `j`-th element. */
  function Without<T>(q: seq<T>, j: nat): (r: seq<T>)
    requires j < |q|
    ensures |r| == |q| - 1
    ensures forall k :: 0 <= k < j ==> r[k] == q[k]
    ensures forall k :: j <= k < |r| ==> r[k] == q[k + 1]
  {
    q[..j] + q[j + 1..]
  }

  /** `stopAutomatedFeed`: clear the interval and forget it. */
  function StopState(s: FeedState): (r: FeedState)
    ensures !r.isRunning && r.intervalRef.None?
    ensures r.liveTimers <= s.liveTimers
    ensures s.intervalRef.Some? ==> s.intervalRef.value !in r.liveTimers
    ensures r.transactions == s.transactions && r.added == s.added && r.error == s.error
    ensures r.inFlight == s.inFlight
  {
    var live := if s.intervalRef.Some? then s.liveTimers - {s.intervalRef.value} else s.liveTimers;
    s.(intervalRef := None, liveTimers := live, isRunning := false)
  }

  /** `processTransaction` up to its `await`: the transaction is generated
      and posted. No page state changes; the request joins those in flight. */
  function SendState(s: FeedState, p: Request): (r: FeedState)
    ensures r.inFlight == s.inFlight + [p]
    ensures r.(inFlight := s.inFlight) == s
  {
    s.(inFlight := s.inFlight + [p])
  }

  /** `processTransaction` after its `await`, with request `p`'s outcome,
      whatever the page's state is by then: nothing checks that the feed is
      still running or that `p` belongs to the current session. */
  function Settle(s: FeedState, p: Request, nowIso: string, outcome: ScoringOutcome): (r: FeedState)
    ensures r.apiSource == s.apiSource && r.sessionSource == s.sessionSource
    ensures r.nextTimer == s.nextTimer && r.inFlight == s.inFlight
    ensures outcome.Scored? ==> |r.added| == |s.added| + 1 && r.isRunning == s.isRunning && r.error == s.error
    ensures outcome.Failed? ==> r.added == s.added && !r.isRunning && Truthy(r.error)
  {
    match outcome
    case Scored(data) =>
      var r := RequestResult(p, nowIso, data);
      s.(added := s.added + [r], transactions := Recent(r, s.transactions), progress := (s.progress + 20) % 100)
    case Failed(detail) =>
      StopState(s.(error := Or(detail, Str(GenericError))))
  }

  /** The response to the `j`-th request in flight arrives; responses may
      arrive in any order. */
  function ResolveState(s: FeedState, j: nat, nowIso: string, outcome: ScoringOutcome): (r: FeedState)
    requires j < |s.inFlight|
    ensures r.inFlight == Without(s.inFlight, j)
    ensures outcome.Scored? ==> |r.added| == |s.added| + 1 && r.isRunning == s.isRunning
    ensures outcome.Failed? ==> r.added == s.added && !r.isRunning && r.intervalRef.None?
  {
    Settle(s.(inFlight := Without(s.inFlight, j)), s.inFlight[j], nowIso, outcome)
  }

  /** One run of the interval's callback whose response arrives before any
      other event: generate, score, log or stop. */
  function TickState(s: FeedState, i: TickInput): (r: FeedState)
    ensures r.apiSource == s.apiSource && r.sessionSource == s.sessionSource && r.nextTimer == s.nextTimer
    ensures r.inFlight == s.inFlight
    ensures i.outcome.Scored? ==> |r.added| == |s.added| + 1 && r.isRunning == s.isRunning && r.error == s.error
    ensures i.outcome.Failed? ==> r.added == s.added && !r.isRunning && Truthy(r.error)
  {
    Settle(s, TickRequest(s.sessionSource, i), i.nowIso, i.outcome)
  }

  /** A tick is a send followed at once by the arrival of that response. */
  lemma TickIsSendThenResolve(s: FeedState, i: TickInput)
    ensures var s1 := SendState(s, TickRequest(s.sessionSource, i));
      TickState(s, i) == ResolveState(s1, |s.inFlight|, i.nowIso, i.outcome)
  {
    var s1 := SendState(s, TickRequest(s.sessionSource, i));
    assert Without(s1.inFlight, |s.inFlight|) == s.inFlight;
  }

  /** The synchronous part of `startAutomatedFeed`: reset, install the
      12-second interval, and fix the source the session's callbacks see. */
  function BeginState(s: FeedState): (r: FeedState)
    ensures r.isRunning && r.progress == 0 && r.error == Str("")
    ensures r.intervalRef == Some(s.nextTimer) && r.liveTimers == s.liveTimers + {s.nextTimer}
    ensures r.nextTimer == s.nextTimer + 1 && r.sessionSource == s.apiSource
    ensures r.apiSource == s.apiSource && r.added == s.added && r.transactions == s.transactions
    ensures r.inFlight == s.inFlight
  {
    var h := s.nextTimer;
    s.(isRunning := true, progress := 0, error := Str(""), intervalRef := Some(h),
       liveTimers := s.liveTimers + {h}, nextTimer := h + 1, sessionSource := s.apiSource)
  }

  /** `startAutomatedFeed` in full: begin, post the first transaction, and
      take its response before any other event. */
  function StartState(s: FeedState, i: TickInput): (r: FeedState)
    ensures r.sessionSource == s.apiSource && r.nextTimer == s.nextTimer + 1
    ensures i.outcome.Scored? ==>
      r.isRunning && r.intervalRef == Some(s.nextTimer) && s.nextTimer in r.liveTimers
      && r.progress == 20 && r.error == Str("")
    ensures i.outcome.Failed? ==> !r.isRunning && r.intervalRef.None?
  {
    TickState(BeginState(s), i)
  }

  /** The start/stop button: stop while running; otherwise begin and post
      `t`, the first transaction. */
  function ToggleState(s: FeedState, t: MockTransaction): (r: FeedState)
    ensures s.isRunning ==> !r.isRunning && r.added == s.added && r.inFlight == s.inFlight
    ensures !s.isRunning ==>
      && r.isRunning && r.nextTimer == s.nextTimer + 1 && r.added == s.added
      && r.inFlight == s.inFlight + [Request(t.data.transactionAmt, t.text, s.apiSource)]
  {
    if s.isRunning then StopState(s) else SendState(BeginState(s), RequestOf(t, s.apiSource))
  }

  /** The unmount cleanup clears the live interval; it leaves the ref itself as it was. */
  function UnmountState(s: FeedState): (r: FeedState)
    ensures r.liveTimers <= s.liveTimers && r.intervalRef == s.intervalRef && r.isRunning == s.isRunning
    ensures s.intervalRef.Some? ==> s.intervalRef.value !in r.liveTimers
  {
    s.(liveTimers := if s.intervalRef.Some? then s.liveTimers - {s.intervalRef.value} else s.liveTimers)
  }

  /** A successful tick logs exactly one result, puts it at the head of the
      history (dropping the oldest beyond ten), moves progress by 20 modulo
      100, and changes nothing else. */
  lemma ScoredTick(s: FeedState, i: TickInput)
    requires i.outcome.Scored?
    ensures TickState(s, i) == s.(added := s.added + [TickResult(s.sessionSource, i)],
                                  transactions := Recent(TickResult(s.sessionSource, i), s.transactions),
                                  progress := (s.progress + 20) % 100)
    ensures TickState(s, i).transactions[0] == TickResult(s.sessionSource, i)
    ensures |s.transactions| <= 10 ==> |TickState(s, i).transactions| <= 10
  {
  }

  /** A scored outcome logs exactly its request's result, puts it at the
      head of the history, moves progress by 20 modulo 100, and changes
      nothing else, whatever state it arrives in. */
  lemma ScoredSettle(s: FeedState, p: Request, nowIso: string, data: map<string, Value>)
    ensures Settle(s, p, nowIso, Scored(data)) ==
      s.(added := s.added + [RequestResult(p, nowIso, data)],
         transactions := Recent(RequestResult(p, nowIso, data), s.transactions),
         progress := (s.progress + 20) % 100)
  {
  }

  lemma StopPreservesInvariant(s: FeedState)
    requires Invariant(s)
    ensures Invariant(StopState(s))
    ensures !StopState(s).isRunning && StopState(s).intervalRef == None && StopState(s).liveTimers == {}
    ensures StopState(s).transactions == s.transactions && StopState(s).error == s.error
    ensures StopState(s).added == s.added && StopState(s).progress == s.progress
  {
  }

  lemma SendPreservesInvariant(s: FeedState, p: Request)
    requires Invariant(s)
    ensures Invariant(SendState(s, p))
  {
  }

  lemma SettlePreservesInvariant(s: FeedState, p: Request, nowIso: string, outcome: ScoringOutcome)
    requires Invariant(s)
    ensures Invariant(Settle(s, p, nowIso, outcome))
  {
    if outcome.Failed? {
      StopPreservesInvariant(s.(error := Or(outcome.detail, Str(GenericError))));
    }
  }

  /** Every response, whenever it arrives, keeps progress in
      {0,20,40,60,80}, the history at most ten long and at most the one
      interval live. */
  lemma ResolvePreservesInvariant(s: FeedState, j: nat, nowIso: string, outcome: ScoringOutcome)
    requires Invariant(s) && j < |s.inFlight|
    ensures Invariant(ResolveState(s, j, nowIso, outcome))
  {
    SettlePreservesInvariant(s.(inFlight := Without(s.inFlight, j)), s.inFlight[j], nowIso, outcome);
  }

  lemma TickPreservesInvariant(s: FeedState, i: TickInput)
    requires Invariant(s)
    ensures Invariant(TickState(s, i))
  {
    SettlePreservesInvariant(s, TickRequest(s.sessionSource, i), i.nowIso, i.outcome);
  }

  /** A failed tick adds nothing and keeps progress, records the response's
      detail or else the generic message (never an empty error), and stops
      the feed with no interval left live. */
  lemma FailedTick(s: FeedState, i: TickInput)
    requires Invariant(s) && i.outcome.Failed?
    ensures var s' := TickState(s, i);
      && s'.added == s.added && s'.transactions == s.transactions && s'.progress == s.progress
      && s'.error == (if Truthy(i.outcome.detail) then i.outcome.detail else Str(GenericError))
      && Truthy(s'.error)
      && !s'.isRunning && s'.intervalRef == None && s'.liveTimers == {}
  {
    StopPreservesInvariant(s.(error := Or(i.outcome.detail, Str(GenericError))));
  }

  /** Beginning from the stopped state installs exactly one fresh interval. */
  lemma BeginEffects(s: FeedState)
    requires Invariant(s) && !s.isRunning
    ensures Invariant(BeginState(s))
    ensures BeginState(s).liveTimers == {s.nextTimer}
  {
  }

  /** Starting from the stopped state clears the error, resets progress and
      installs one fresh interval, then the immediate tick runs. */
  lemma StartEffects(s: FeedState, i: TickInput)
    requires Invariant(s) && !s.isRunning
    ensures Invariant(StartState(s, i))
    ensures i.outcome.Scored? ==>
      var s' := StartState(s, i);
      && s'.isRunning && s'.error == Str("") && s'.progress == 20
      && s'.intervalRef == Some(s.nextTimer) && s'.liveTimers == {s.nextTimer}
      && s'.sessionSource == s.apiSource
      && |s'.added| == |s.added| + 1 && s'.transactions[0] == s'.added[|s'.added| - 1]
    ensures i.outcome.Failed? ==>
      var s' := StartState(s, i);
      && !s'.isRunning && s'.liveTimers == {} && s'.progress == 0
      && s'.added == s.added && s'.transactions == s.transactions && Truthy(s'.error)
  {
    var s1 := BeginState(s);
    BeginEffects(s);
    TickPreservesInvariant(s1, i);
    if i.outcome.Failed? {
      FailedTick(s1, i);
    }
  }

  /** The button keeps at most one live interval. */
  lemma ToggleKeepsOneTimer(s: FeedState, t: MockTransaction)
    requires Invariant(s)
    ensures Invariant(ToggleState(s, t))
    ensures |ToggleState(s, t).liveTimers| <= 1
    ensures s.isRunning ==> ToggleState(s, t).liveTimers == {}
    ensures !s.isRunning ==> ToggleState(s, t).liveTimers == {s.nextTimer}
  {
    if s.isRunning {
      StopPreservesInvariant(s);
    } else {
      BeginEffects(s);
      SendPreservesInvariant(BeginState(s), RequestOf(t, s.apiSource));
    }
  }

  /** The start function itself does not guard against a second interval:
      reached while a live interval exists, it leaves two running. The
      toggle is what keeps it from being reached that way. */
  lemma StartWhileRunningLeaksTimer(s: FeedState)
    requires Invariant(s) && s.isRunning && s.liveTimers == {s.intervalRef.value}
    ensures |BeginState(s).liveTimers| == 2
  {
    var h := s.nextTimer;
    assert h != s.intervalRef.value;
    assert BeginState(s).liveTimers == {s.intervalRef.value, h};
  }

  lemma UnmountReleasesTimer(s: FeedState)
    requires Invariant(s)
    ensures Invariant(UnmountState(s))
    ensures UnmountState(s).liveTimers == {}
  {
  }

  // ---------------------------------------------------------------------
  // Responses that arrive late
  // ---------------------------------------------------------------------

  /** A success that arrives after the feed was stopped is still logged:
      the parent receives it, it heads the history and progress moves on,
      while the feed stays stopped. */
  lemma LateSuccessAfterStop(s: FeedState, j: nat, nowIso: string, data: map<string, Value>)
    requires Invariant(s) && j < |s.inFlight|
    ensures var s' := ResolveState(StopState(s), j, nowIso, Scored(data));
      var r := RequestResult(s.inFlight[j], nowIso, data);
      && !s'.isRunning && s'.liveTimers == {}
      && s'.added == s.added + [r] && s'.transactions[0] == r
      && s'.progress == (s.progress + 20) % 100
  {
    StopPreservesInvariant(s);
  }

  /** A failure from a request posted before a restart stops the new
      session: the shared ref clears the new interval. */
  lemma StaleFailureStopsNewSession(s: FeedState, j: nat, nowIso: string, detail: Value)
    requires Invariant(s) && !s.isRunning && j < |s.inFlight|
    ensures var s1 := BeginState(s);
      var s2 := ResolveState(s1, j, nowIso, Failed(detail));
      && s1.isRunning && s1.liveTimers == {s.nextTimer}
      && !s2.isRunning && s2.intervalRef.None? && s2.liveTimers == {} && Truthy(s2.error)
  {
    BeginEffects(s);
  }

  /** A success from a request posted before a restart is logged with the
      source its own session captured, not the new session's. */
  lemma StaleSuccessKeepsItsSource(s: FeedState, j: nat, nowIso: string, data: map<string, Value>)
    requires Invariant(s) && !s.isRunning && j < |s.inFlight|
    ensures var s2 := ResolveState(BeginState(s), j, nowIso, Scored(data));
      && s2.isRunning && s2.sessionSource == s.apiSource
      && s2.transactions[0]["api_source"] == Str(s.inFlight[j].source)
  {
  }

  /** When the newer of two pending responses arrives first, the older one
      ends up at the head of the history and last in the parent's list. */
  lemma ResponsesOutOfOrder(s: FeedState, iso1: string, data1: map<string, Value>,
                            iso2: string, data2: map<string, Value>)
    requires |s.inFlight| >= 2
    ensures var s1 := ResolveState(s, 1, iso2, Scored(data2));
      |s1.inFlight| >= 1 &&
      var s2 := ResolveState(s1, 0, iso1, Scored(data1));
      var r1 := RequestResult(s.inFlight[0], iso1, data1);
      var r2 := RequestResult(s.inFlight[1], iso2, data2);
      && s2.added == s.added + [r2, r1]
      && s2.transactions[0] == r1 && s2.transactions[1] == r2
      && s2.inFlight == s.inFlight[2..]
  {
    var s1 := ResolveState(s, 1, iso2, Scored(data2));
    assert s1.inFlight[0] == s.inFlight[0];
    var s2 := ResolveState(s1, 0, iso1, Scored(data1));
    assert s2.inFlight == s.inFlight[2..];
  }

  // ---------------------------------------------------------------------
  // Runs of ticks
  // ---------------------------------------------------------------------

  function Reverse<T>(s: seq<T>): (r: seq<T>)
    ensures |r| == |s|
  {
    if s == [] then [] else Reverse(s[1..]) + [s[0]]
  }

  function Take<T>(s: seq<T>, n: nat): (r: seq<T>)
    ensures |r| == if |s| < n then |s| else n
  {
    if |s| <= n then s else s[..n]
  }

  lemma {:induction false} ReverseAt<T>(s: seq<T>, k: nat)
    requires k < |s|
    ensures Reverse(s)[k] == s[|s| - 1 - k]
  {
    if k < |s| - 1 {
      ReverseAt(s[1..], k);
    }
  }

  lemma {:induction false} TakeOfTake<T>(a: seq<T>, b: seq<T>, n: nat)
    ensures Take(a + Take(b, n), n) == Take(a + b, n)
  {
    if |b| > n {
      var lhs := Take(a + Take(b, n), n);
      var rhs := Take(a + b, n);
      assert |lhs| == |rhs|;
      forall k | 0 <= k < |lhs| ensures lhs[k] == rhs[k] {
        if k >= |a| {
          assert lhs[k] == b[k - |a|];
        }
      }
    }
  }

  /** Reversal and concatenation regroup. */
  lemma ReverseThenTake<T>(x: T, s: seq<T>, h: seq<T>)
    ensures Reverse(s) + ([x] + h) == Reverse([x] + s) + h
  {
    assert ([x] + s)[1..] == s;
  }

  lemma RecentIsTake<T>(x: T, h: seq<T>)
    ensures Recent(x, h) == Take([x] + h, 10)
  {
  }

  /** The history after pushing `rs` one at a time, oldest first. */
  function PushAll<T>(h: seq<T>, rs: seq<T>): seq<T>
    decreases |rs|
  {
    if rs == [] then h else PushAll(Recent(rs[0], h), rs[1..])
  }

  /** Pushing one at a time keeps the ten newest, newest first. */
  lemma {:induction false} PushAllKeepsNewest<T>(h: seq<T>, rs: seq<T>)
    requires |h| <= 10
    ensures PushAll(h, rs) == Take(Reverse(rs) + h, 10)
    decreases |rs|
  {
    if rs != [] {
      PushAllKeepsNewest(Recent(rs[0], h), rs[1..]);
      RecentIsTake(rs[0], h);
      TakeOfTake(Reverse(rs[1..]), [rs[0]] + h, 10);
      ReverseThenTake(rs[0], rs[1..], h);
      assert [rs[0]] + rs[1..] == rs;
    }
  }

  /** Progress after n successful ticks, one step at a time. */
  function ProgressAfter(p: int, n: nat): int
    decreases n
  {
    if n == 0 then p else ProgressAfter((p + 20) % 100, n - 1)
  }

  /** The closed form: 20 per tick, modulo 100. */
  lemma {:induction false} ProgressAfterClosed(p: int, n: nat)
    requires 0 <= p < 100
    ensures ProgressAfter(p, n) == (p + 20 * n) % 100
    decreases n
  {
    if n > 0 {
      var q := (p + 20) % 100;
      ProgressAfterClosed(q, n - 1);
      if p + 20 >= 100 {
        assert q == p + 20 - 100;
        DropHundred(p + 20 * n);
      }
    }
  }

  lemma DropHundred(x: int)
    ensures (x - 100) % 100 == x % 100
  {
    var k, m := x / 100, x % 100;
    assert x - 100 == 100 * (k - 1) + m;
  }

  lemma ProgressFromZero(n: nat)
    ensures ProgressAfter(0, n) == (20 * n) % 100
  {
    ProgressAfterClosed(0, n);
  }

  lemma {:induction false} ProgressAfterInSteps(p: int, n: nat)
    requires p in {0, 20, 40, 60, 80}
    ensures ProgressAfter(p, n) in {0, 20, 40, 60, 80}
    decreases n
  {
    if n > 0 {
      ProgressAfterInSteps((p + 20) % 100, n - 1);
    }
  }

  predicate AllScored(ticks: seq<TickInput>) {
    forall k :: 0 <= k < |ticks| ==> ticks[k].outcome.Scored?
  }

  function RunTicks(s: FeedState, ticks: seq<TickInput>): FeedState
    decreases |ticks|
  {
    if ticks == [] then s else RunTicks(TickState(s, ticks[0]), ticks[1..])
  }

  /** The results a run of successful ticks produces, oldest first. */
  function ResultsOf(source: string, ticks: seq<TickInput>): (rs: seq<map<string, Value>>)
    requires AllScored(ticks)
    ensures |rs| == |ticks|
    decreases |ticks|
  {
    if ticks == [] then [] else [TickResult(source, ticks[0])] + ResultsOf(source, ticks[1..])
  }

  /** The state after storing the results `rs` one tick at a time. */
  function RunResults(s: FeedState, rs: seq<map<string, Value>>): FeedState
    decreases |rs|
  {
    if rs == [] then s
    else RunResults(s.(added := s.added + [rs[0]], transactions := Recent(rs[0], s.transactions),
                       progress := (s.progress + 20) % 100), rs[1..])
  }

  lemma AppendFirst<T>(a: seq<T>, rs: seq<T>)
    requires rs != []
    ensures (a + [rs[0]]) + rs[1..] == a + rs
  {
    assert [rs[0]] + rs[1..] == rs;
  }

  lemma {:induction false} RunResultsEffects(s: FeedState, rs: seq<map<string, Value>>)
    ensures RunResults(s, rs) == s.(added := s.added + rs, transactions := PushAll(s.transactions, rs),
                                    progress := ProgressAfter(s.progress, |rs|))
    decreases |rs|
  {
    if rs == [] {
      assert s.added + rs == s.added;
    } else {
      var s1 := s.(added := s.added + [rs[0]], transactions := Recent(rs[0], s.transactions),
                   progress := (s.progress + 20) % 100);
      RunResultsEffects(s1, rs[1..]);
      AppendFirst(s.added, rs);
    }
  }

  lemma {:induction false} RunTicksStoresResults(s: FeedState, ticks: seq<TickInput>)
    requires AllScored(ticks)
    ensures RunTicks(s, ticks) == RunResults(s, ResultsOf(s.sessionSource, ticks))
    decreases |ticks|
  {
    if ticks != [] {
      ScoredTick(s, ticks[0]);
      assert AllScored(ticks[1..]);
      RunTicksStoresResults(TickState(s, ticks[0]), ticks[1..]);
    }
  }

  /** n successful ticks append their n results to the parent's list and
      leave the ten most recent of them (and of the earlier history),
      newest first; nothing but the log, the history and progress changes. */
  lemma SuccessfulTicks(s: FeedState, ticks: seq<TickInput>)
    requires |s.transactions| <= 10
    requires AllScored(ticks)
    ensures var s' := RunTicks(s, ticks);
      var rs := ResultsOf(s.sessionSource, ticks);
      && s'.added == s.added + rs
      && s'.transactions == Take(Reverse(rs) + s.transactions, 10)
      && s' == s.(added := s'.added, transactions := s'.transactions, progress := s'.progress)
  {
    var rs := ResultsOf(s.sessionSource, ticks);
    RunTicksStoresResults(s, ticks);
    RunResultsEffects(s, rs);
    PushAllKeepsNewest(s.transactions, rs);
  }

  /** n successful ticks advance progress by 20·n modulo 100. */
  lemma SuccessfulTicksProgress(s: FeedState, ticks: seq<TickInput>)
    requires 0 <= s.progress < 100
    requires AllScored(ticks)
    ensures RunTicks(s, ticks).progress == (s.progress + 20 * |ticks|) % 100
  {
    RunTicksProgress(s, ticks);
    ProgressAfterClosed(s.progress, |ticks|);
  }

  lemma TickAdvancesProgress(s: FeedState, i: TickInput)
    requires i.outcome.Scored?
    ensures TickState(s, i).progress == (s.progress + 20) % 100
  {
  }

  lemma {:induction false} RunTicksProgress(s: FeedState, ticks: seq<TickInput>)
    requires AllScored(ticks)
    ensures RunTicks(s, ticks).progress == ProgressAfter(s.progress, |ticks|)
    decreases |ticks|
  {
    if ticks != [] {
      var t, rest := ticks[0], ticks[1..];
      assert t.outcome.Scored?;
      assert AllScored(rest);
      var s1 := TickState(s, t);
      assert RunTicks(s, ticks) == RunTicks(s1, rest);
      TickAdvancesProgress(s, t);
      RunTicksProgress(s1, rest);
      assert ProgressAfter(s.progress, |ticks|) == ProgressAfter(s1.progress, |rest|);
    }
  }

  /** After eleven successful ticks from an empty history the page keeps
      exactly ten results, the newest first and the first one dropped,
      while the parent has received all eleven. */
  lemma ElevenTicks(s: FeedState, ticks: seq<TickInput>)
    requires s.transactions == [] && |ticks| == 11
    requires AllScored(ticks)
    ensures var s' := RunTicks(s, ticks);
      var rs := ResultsOf(s.sessionSource, ticks);
      && |s'.transactions| == 10
      && (forall k :: 0 <= k < 10 ==> s'.transactions[k] == rs[10 - k])
      && s'.added == s.added + rs
  {
    SuccessfulTicks(s, ticks);
    NewestTen(ResultsOf(s.sessionSource, ticks));
  }

  /** Of eleven items pushed newest-first onto an empty history, the ten
      kept are all but the first, newest first. */
  lemma NewestTen<T>(rs: seq<T>)
    requires |rs| == 11
    ensures var kept := Take(Reverse(rs) + [], 10);
      |kept| == 10 && forall k :: 0 <= k < 10 ==> kept[k] == rs[10 - k]
  {
    assert Reverse(rs) + [] == Reverse(rs);
    forall k | 0 <= k < 10 ensures Take(Reverse(rs), 10)[k] == rs[10 - k] {
      ReverseAt(rs, k);
    }
  }

  /** From a fresh start progress runs 0, 20, 40, 60, 80, 0, ... */
  lemma ProgressCycles(s: FeedState, ticks: seq<TickInput>)
    requires |s.transactions| <= 10 && s.progress == 0 && AllScored(ticks)
    ensures RunTicks(s, ticks).progress == (20 * |ticks|) % 100
    ensures RunTicks(s, ticks).progress in {0, 20, 40, 60, 80}
  {
    var rs := ResultsOf(s.sessionSource, ticks);
    RunTicksStoresResults(s, ticks);
    RunResultsEffects(s, rs);
    ProgressFromZero(|ticks|);
    ProgressAfterInSteps(0, |ticks|);
  }

  // ---------------------------------------------------------------------
  // The page component
  // ---------------------------------------------------------------------

  class FeedController {
    var apiSource: string
    var isRunning: bool
    var progress: int
    var transactions: seq<map<string, Value>>
    var error: Value
    var intervalRef: Option<nat>
    var liveTimers: set<nat>
    var nextTimer: nat
    var sessionSource: string
    var added: seq<map<string, Value>>
    var inFlight: seq<Request>

    function State(): FeedState
      reads this
    {
      FeedState(apiSource, isRunning, progress, transactions, error, intervalRef,
                liveTimers, nextTimer, sessionSource, added, inFlight)
    }

    ghost predicate Valid()
      reads this
    {
      Invariant(State())
    }

    constructor ()
      ensures State() == InitialState() && Valid()
    {
      apiSource, isRunning, progress, transactions, error := "plaid", false, 0, [], Str("");
      intervalRef, liveTimers, nextTimer, sessionSource, added := None, {}, 1, "plaid", [];
      inFlight := [];
    }

    /** The data-source radio group. */
    method HandleApiSourceChange(source: string)
      requires Valid()
      modifies this
      ensures State() == old(State()).(apiSource := source) && Valid()
    {
      apiSource := source;
    }

    /** `processTransaction` up to its `await`: generate the transaction and
        post it with the session's captured source. */
    method SendTransaction(draws: seq<real>, nowMillis: int, nowIso: string) returns (t: MockTransaction)
      requires Valid() && DrawsFit(draws)
      modifies this
      ensures t == MockTransactionOf(draws, nowMillis, nowIso)
      ensures State() == SendState(old(State()), RequestOf(t, old(sessionSource))) && Valid()
    {
      t := GenerateMockTransaction(draws, nowMillis, nowIso);
      var p := RequestOf(t, sessionSource);
      SendPreservesInvariant(State(), p);
      inFlight := inFlight + [p];
    }

    /** `processTransaction` after its `await`: the response to the `j`-th
        request in flight arrives, in whatever state the page is by then. */
    method ReceiveResponse(j: nat, nowIso: string, outcome: ScoringOutcome)
      requires Valid() && j < |inFlight|
      modifies this
      ensures State() == ResolveState(old(State()), j, nowIso, outcome) && Valid()
    {
      ResolvePreservesInvariant(State(), j, nowIso, outcome);
      var p := inFlight[j];
      inFlight := Without(inFlight, j);
      if outcome.Scored? {
        RecordResult(p, nowIso, outcome.data);
      } else {
        RecordFailure(outcome.detail);
      }
    }

    /** A scored response: store the merged result and advance the progress. */
    method RecordResult(p: Request, nowIso: string, data: map<string, Value>)
      requires Valid()
      modifies this`added, this`transactions, this`progress
      ensures State() == Settle(old(State()), p, nowIso, Scored(data)) && Valid()
    {
      SettlePreservesInvariant(State(), p, nowIso, Scored(data));
      ScoredSettle(State(), p, nowIso, data);
      var r := RequestResult(p, nowIso, data);
      added := added + [r];
      transactions := Recent(r, transactions);
      progress := (progress + 20) % 100;
    }

    /** A failed response: record the error and stop. */
    method RecordFailure(detail: Value)
      requires Valid()
      modifies this
      ensures State() == StopState(old(State()).(error := Or(detail, Str(GenericError)))) && Valid()
    {
      StopPreservesInvariant(State().(error := Or(detail, Str(GenericError))));
      error := Or(detail, Str(GenericError));
      StopAutomatedFeed();
    }

    /** `stopAutomatedFeed`. */
    method StopAutomatedFeed()
      requires Valid()
      modifies this
      ensures State() == StopState(old(State())) && Valid()
    {
      StopPreservesInvariant(State());
      if intervalRef.Some? {
        liveTimers := liveTimers - {intervalRef.value};
        intervalRef := None;
      }
      isRunning := false;
    }

    /** `startAutomatedFeed`: reset, install the interval and post the first
        transaction; its response arrives later, through ReceiveResponse.
        The toggle reaches it only while stopped. */
    method StartAutomatedFeed(draws: seq<real>, nowMillis: int, nowIso: string) returns (t: MockTransaction)
      requires Valid() && !isRunning && DrawsFit(draws)
      modifies this
      ensures t == MockTransactionOf(draws, nowMillis, nowIso)
      ensures State() == SendState(BeginState(old(State())), RequestOf(t, old(apiSource)))
      ensures Valid() && liveTimers == {old(nextTimer)}
    {
      BeginEffects(State());
      isRunning := true;
      progress := 0;
      error := Str("");
      intervalRef := Some(nextTimer);
      liveTimers := liveTimers + {nextTimer};
      nextTimer := nextTimer + 1;
      sessionSource := apiSource;
      t := SendTransaction(draws, nowMillis, nowIso);
    }

    /** The start/stop button. */
    method Toggle(draws: seq<real>, nowMillis: int, nowIso: string)
      requires Valid() && DrawsFit(draws)
      modifies this
      ensures State() == ToggleState(old(State()), MockTransactionOf(draws, nowMillis, nowIso)) && Valid()
      ensures |liveTimers| <= 1
    {
      ToggleKeepsOneTimer(State(), MockTransactionOf(draws, nowMillis, nowIso));
      if isRunning {
        StopAutomatedFeed();
      } else {
        var _ := StartAutomatedFeed(draws, nowMillis, nowIso);
      }
    }

    /** A firing of a live interval posts one more transaction, whether or
        not earlier responses have arrived. */
    method TimerFires(h: nat, draws: seq<real>, nowMillis: int, nowIso: string) returns (t: MockTransaction)
      requires Valid() && h in liveTimers && DrawsFit(draws)
      modifies this
      ensures t == MockTransactionOf(draws, nowMillis, nowIso)
      ensures State() == SendState(old(State()), RequestOf(t, old(sessionSource))) && Valid()
    {
      t := SendTransaction(draws, nowMillis, nowIso);
    }

    /** The effect cleanup run when the page unmounts. */
    method Unmount()
      requires Valid()
      modifies this
      ensures State() == UnmountState(old(State())) && Valid() && liveTimers == {}
    {
      if intervalRef.Some? {
        liveTimers := liveTimers - {intervalRef.value};
      }
    }
  }
}
