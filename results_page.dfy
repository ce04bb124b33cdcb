/** The results page: risk levels and colours on the 0–1 scale, the
    statistics cards, the demo fallback, the paginated table and the
    "recent transactions" bar-chart window. */
module ResultsPage {
  import opened Numbers
  import opened Values

  /** One scored transaction as the page reads it. */
  datatype ScoredResult = ScoredResult(
    id: nat,
    fraudProbability: real,
    complianceRisk: real,
    behaviorAnomaly: real,
    overallRisk: real,
    timestamp: string,
    transactionAmount: real,
    transactionText: string)

  /** The rows shown when no results have been passed in. */
  const DemoResults: seq<ScoredResult> := [
    ScoredResult(1, 0.82, 0.75, 0.68, 0.78, "2023-06-15T14:32:45", 15000.0,
                 "International wire transfer to offshore account"),
    ScoredResult(2, 0.15, 0.22, 0.18, 0.17, "2023-06-15T15:10:22", 350.50,
                 "Regular monthly payment to vendor"),
    ScoredResult(3, 0.45, 0.58, 0.62, 0.52, "2023-06-15T16:05:11", 4200.0,
                 "New recipient payment with unusual amount"),
    ScoredResult(4, 0.08, 0.12, 0.05, 0.08, "2023-06-15T16:45:30", 125.75,
                 "Regular subscription payment"),
    ScoredResult(5, 0.92, 0.85, 0.78, 0.88, "2023-06-15T17:22:18", 25000.0,
                 "Large transfer to newly created account in high-risk jurisdiction")
  ]

  // ---------------------------------------------------------------------
  // Levels and colours
  // ---------------------------------------------------------------------

  datatype Level = Low | Medium | High

  /** The theme palette entries the page paints with. */
  datatype Color = SuccessMain | WarningMain | ErrorMain

  /** `getRiskLevel`. */
  function RiskLevel(risk: real): (l: Level)
    ensures l == Low <==> risk < 0.3
    ensures l == Medium <==> 0.3 <= risk < 0.7
    ensures l == High <==> 0.7 <= risk
  {
    if risk < 0.3 then Low
    else if risk < 0.7 then Medium
    else High
  }

  /** `getRiskColor`. */
  function RiskColor(risk: real): Color {
    if risk < 0.3 then SuccessMain
    else if risk < 0.7 then WarningMain
    else ErrorMain
  }

  /** The colour the page pairs with each level (the pie chart's slices). */
  function LevelColor(l: Level): Color {
    match l
    case Low => SuccessMain
    case Medium => WarningMain
    case High => ErrorMain
  }

  /** Colour and level always agree: the colour is a function of the level. */
  lemma ColorMatchesLevel(risk: real)
    ensures RiskColor(risk) == LevelColor(RiskLevel(risk))
  {
  }

  function LevelRank(l: Level): nat {
    match l
    case Low => 0
    case Medium => 1
    case High => 2
  }

  /** A higher risk never gets a lower level. */
  lemma RiskLevelMonotone(a: real, b: real)
    requires a <= b
    ensures LevelRank(RiskLevel(a)) <= LevelRank(RiskLevel(b))
  {
  }

  // ---------------------------------------------------------------------
  // Statistics
  // ---------------------------------------------------------------------

  /** `results.length > 0 ? results : DEMO_RESULTS`. */
  function DisplayResults(results: seq<ScoredResult>): (d: seq<ScoredResult>)
    ensures |d| > 0
    ensures results != [] ==> d == results
    ensures results == [] ==> d == DemoResults
  {
    if |results| > 0 then results else DemoResults
  }

  /** `filter(r => r.overall_risk >= 0.7).length`. */
  function CountHigh(rs: seq<ScoredResult>): (n: nat)
    ensures n <= |rs|
    ensures n == CountLevel(rs, High)
  {
    if rs == [] then 0 else (if rs[0].overallRisk >= 0.7 then 1 else 0) + CountHigh(rs[1..])
  }

  /** `filter(r => r.overall_risk >= 0.3 && r.overall_risk < 0.7).length`. */
  function CountMedium(rs: seq<ScoredResult>): (n: nat)
    ensures n <= |rs|
    ensures n == CountLevel(rs, Medium)
  {
    if rs == [] then 0
    else (if rs[0].overallRisk >= 0.3 && rs[0].overallRisk < 0.7 then 1 else 0) + CountMedium(rs[1..])
  }

  /** `filter(r => r.overall_risk < 0.3).length`. */
  function CountLow(rs: seq<ScoredResult>): (n: nat)
    ensures n <= |rs|
    ensures n == CountLevel(rs, Low)
  {
    if rs == [] then 0 else (if rs[0].overallRisk < 0.3 then 1 else 0) + CountLow(rs[1..])
  }

  /** How many rows `getRiskLevel` puts at level `l`. */
  function CountLevel(rs: seq<ScoredResult>, l: Level): nat {
    if rs == [] then 0 else (if RiskLevel(rs[0].overallRisk) == l then 1 else 0) + CountLevel(rs[1..], l)
  }

  /** The three counts partition the list, and each agrees with the level
      the table shows for its rows. */
  lemma {:induction false} CountsPartition(rs: seq<ScoredResult>)
    ensures CountHigh(rs) + CountMedium(rs) + CountLow(rs) == |rs|
    ensures CountHigh(rs) == CountLevel(rs, High)
    ensures CountMedium(rs) == CountLevel(rs, Medium)
    ensures CountLow(rs) == CountLevel(rs, Low)
  {
    if rs != [] {
      CountsPartition(rs[1..]);
    }
  }

  /** `reduce((acc, r) => acc + r.overall_risk, 0)`. */
  function SumRisk(rs: seq<ScoredResult>): real {
    if rs == [] then 0.0 else rs[0].overallRisk + SumRisk(rs[1..])
  }

  predicate RisksWithin(rs: seq<ScoredResult>, lo: real, hi: real) {
    forall k :: 0 <= k < |rs| ==> lo <= rs[k].overallRisk <= hi
  }

  lemma {:induction false} SumRiskBounds(rs: seq<ScoredResult>, lo: real, hi: real)
    requires RisksWithin(rs, lo, hi)
    ensures |rs| as real * lo <= SumRisk(rs) <= |rs| as real * hi
  {
    if rs != [] {
      assert RisksWithin(rs[1..], lo, hi);
      SumRiskBounds(rs[1..], lo, hi);
    }
  }

  /** The figures the statistics cards show. */
  datatype Stats = Stats(totalTransactions: nat, highRiskCount: nat, mediumRiskCount: nat,
                         lowRiskCount: nat, averageRisk: real)

  /** `total / n`, which times n gives back the total. */
  function MeanOf(total: real, n: nat): (m: real)
    requires n > 0
    ensures m * n as real == total
  {
    total / n as real
  }

  /** The statistics effect for a non-empty list. */
  function ComputeStats(display: seq<ScoredResult>): (s: Stats)
    requires |display| > 0
    ensures s.totalTransactions == |display|
    ensures s.highRiskCount == CountLevel(display, High)
    ensures s.mediumRiskCount == CountLevel(display, Medium)
    ensures s.lowRiskCount == CountLevel(display, Low)
    ensures s.highRiskCount + s.mediumRiskCount + s.lowRiskCount == s.totalTransactions
    ensures s.averageRisk * |display| as real == SumRisk(display)
  {
    assert CountHigh(display) + CountMedium(display) + CountLow(display) == |display| by {
      CountsPartition(display);
    }
    Stats(|display|, CountHigh(display), CountMedium(display), CountLow(display),
          MeanOf(SumRisk(display), |display|))
  }

  /** The statistics the page shows for its `results` prop: never computed
      over an empty list, because of the demo fallback. */
  function PageStats(results: seq<ScoredResult>): (s: Stats)
    ensures s.totalTransactions > 0
    ensures results == [] ==> s.totalTransactions == |DemoResults|
  {
    ComputeStats(DisplayResults(results))
  }

  lemma QuotientWithin(x: real, n: real, lo: real, hi: real)
    requires n > 0.0 && n * lo <= x <= n * hi
    ensures lo <= x / n <= hi
  {
    var q := x / n;
    assert q * n == x;
  }

  /** The average lies between the smallest and largest possible risk. */
  lemma AverageWithin(display: seq<ScoredResult>, lo: real, hi: real)
    requires |display| > 0 && RisksWithin(display, lo, hi)
    ensures lo <= ComputeStats(display).averageRisk <= hi
  {
    SumRiskBounds(display, lo, hi);
    QuotientWithin(SumRisk(display), |display| as real, lo, hi);
  }

  /** With no results the demo rows give 5 transactions: 2 high, 1 medium, 2 low. */
  lemma DemoStats()
    ensures PageStats([]) == Stats(5, 2, 1, 2, 0.486)
  {
    assert DemoResults[1..][1..][1..][1..][1..] == [];
  }

  // ---------------------------------------------------------------------
  // Table and charts
  // ---------------------------------------------------------------------

  function Min(a: int, b: int): int {
    if a <= b then a else b
  }

  /** `display.slice(page * rpp, page * rpp + rpp)`. */
  function Visible(display: seq<ScoredResult>, page: nat, rpp: nat): (r: seq<ScoredResult>)
    ensures |r| <= rpp
    ensures |r| == Min(rpp, |display| - page * rpp) || (|r| == 0 && page * rpp >= |display|)
    ensures forall k :: 0 <= k < |r| ==> page * rpp + k < |display| && r[k] == display[page * rpp + k]
  {
    var lo := Min(page * rpp, |display|);
    var hi := Min(page * rpp + rpp, |display|);
    display[lo..hi]
  }

  /** Every row is on exactly one page: row i is entry i % rpp of page i / rpp. */
  lemma RowOnItsPage(display: seq<ScoredResult>, rpp: nat, i: nat)
    requires rpp > 0 && i < |display|
    ensures var p := Visible(display, i / rpp, rpp);
      i % rpp < |p| && p[i % rpp] == display[i]
  {
    var page := i / rpp;
    assert page * rpp + i % rpp == i;
    assert page * rpp <= i;
  }

  const RowsPerPageOptions: seq<nat> := [5, 10, 25]

  /** The rows-per-page selector's option text reads back as the option. */
  lemma RowsPerPageOptionsParse(k: nat)
    requires k < |RowsPerPageOptions|
    ensures ParseInt(NatToString(RowsPerPageOptions[k])) == Some(RowsPerPageOptions[k] as int)
  {
    NatToStringParses(RowsPerPageOptions[k]);
  }

  /** One bar-chart group. */
  datatype Bar = Bar(timestamp: string, fraud: real, compliance: real, behavior: real, overall: real)

  /** One row as percentages, labelled by its timestamp. */
  function BarOf(r: ScoredResult): (b: Bar)
    ensures b.timestamp == r.timestamp
    ensures 0.0 <= r.overallRisk <= 1.0 ==> 0.0 <= b.overall <= 100.0
    ensures 3.0 * b.overall == b.fraud + b.compliance + b.behavior
        <== 3.0 * r.overallRisk == r.fraudProbability + r.complianceRisk + r.behaviorAnomaly
  {
    Bar(r.timestamp, r.fraudProbability * 100.0, r.complianceRisk * 100.0,
        r.behaviorAnomaly * 100.0, r.overallRisk * 100.0)
  }

  /** `display.slice(0, 10).map(...).reverse()`: the first ten rows, last first. */
  function BarChartData(display: seq<ScoredResult>): (bars: seq<Bar>)
    ensures |bars| == Min(10, |display|)
    ensures forall k :: 0 <= k < |bars| ==> bars[k] == BarOf(display[|bars| - 1 - k])
  {
    var n := Min(10, |display|);
    seq(n, k requires 0 <= k < n => BarOf(display[n - 1 - k]))
  }

  /** The pie slices: counts with the colours of their levels. */
  function PieChartData(s: Stats): (slices: seq<(Level, nat, Color)>)
    ensures |slices| == 3
    ensures forall k :: 0 <= k < 3 ==> slices[k].2 == LevelColor(slices[k].0)
  {
    [(High, s.highRiskCount, ErrorMain), (Medium, s.mediumRiskCount, WarningMain),
     (Low, s.lowRiskCount, SuccessMain)]
  }

  /** Each pie slice holds the count of the rows at its own level. */
  lemma PieSlicesCountTheirLevels(display: seq<ScoredResult>)
    requires |display| > 0
    ensures var slices := PieChartData(ComputeStats(display));
      forall k :: 0 <= k < 3 ==> slices[k].1 == CountLevel(display, slices[k].0)
  {
  }

  /** The table's paging state. */
  class ResultsTable {
    var page: nat
    var rowsPerPage: nat

    constructor ()
      ensures page == 0 && rowsPerPage == 10
    {
      page, rowsPerPage := 0, 10;
    }

    /** The rows the table body shows. */
    function Rows(display: seq<ScoredResult>): (r: seq<ScoredResult>)
      reads this
      ensures |r| <= rowsPerPage
    {
      Visible(display, page, rowsPerPage)
    }

    /** `handleChangePage`. */
    method HandleChangePage(newPage: nat)
      modifies this
      ensures page == newPage && rowsPerPage == old(rowsPerPage)
    {
      page := newPage;
    }

    /** `handleChangeRowsPerPage`: the parsed option, and back to page 0. */
    method HandleChangeRowsPerPage(value: string)
      requires ParseInt(value).Some? && ParseInt(value).value >= 0
      modifies this
      ensures rowsPerPage == ParseInt(value).value && page == 0
    {
      rowsPerPage := ParseInt(value).value;
      page := 0;
    }
  }
}
