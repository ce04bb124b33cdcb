/** The compliance score read from the language model's reply: either the
    whole reply is a number, or the first `risk score of **D**` in it gives
    the number; both are returned as percentages. */
module ComplianceScore {
  import opened Values
  import opened Numbers

  // ---------------------------------------------------------------------
  // The pattern `risk score of \*\*(\d*\.?\d+)\*\*`
  // ---------------------------------------------------------------------

  const Marker: string := "risk score of **"
  const Closing: string := "**"

  predicate IsDecimalChar(c: char) {
    IsDigit(c) || c == '.'
  }

  function CountDots(g: string): nat {
    if g == [] then 0 else (if g[0] == '.' then 1 else 0) + CountDots(g[1..])
  }

  /** The strings `\d*\.?\d+` matches: digits with at most one dot and a
      digit at the end. */
  predicate GroupShape(g: string) {
    && |g| > 0
    && (forall i :: 0 <= i < |g| ==> IsDecimalChar(g[i]))
    && CountDots(g) <= 1
    && IsDigit(g[|g| - 1])
  }

  /** Length of the longest prefix made of digits and dots. */
  function DecimalRun(s: string): (k: nat)
    ensures k <= |s|
    ensures forall i :: 0 <= i < k ==> IsDecimalChar(s[i])
    ensures k < |s| ==> !IsDecimalChar(s[k])
  {
    if s == [] || !IsDecimalChar(s[0]) then 0 else 1 + DecimalRun(s[1..])
  }

  predicate StartsWith(s: string, p: string) {
    |p| <= |s| && s[..|p|] == p
  }

  /** The group of a match starting at `i`, if the pattern matches there.
      The group is followed by `*`, which is neither a digit nor a dot, so
      it is the whole run of digits and dots after the marker. */
  function GroupAt(s: string, i: nat): (g: Option<string>)
    requires i <= |s|
    ensures g.Some? ==> GroupShape(g.value)
  {
    if !StartsWith(s[i..], Marker) then None
    else
      var rest := s[i + |Marker|..];
      var k := DecimalRun(rest);
      var g := rest[..k];
      if GroupShape(g) && StartsWith(rest[k..], Closing) then Some(g) else None
  }

  /** `re.search`: the group of the leftmost match at or after `i`. */
  function SearchFrom(s: string, i: nat): (g: Option<string>)
    requires i <= |s|
    ensures g.Some? ==> GroupShape(g.value)
    decreases |s| - i
  {
    if GroupAt(s, i).Some? then GroupAt(s, i)
    else if i == |s| then None
    else SearchFrom(s, i + 1)
  }

  /** `float(group)`: the integer part plus the fraction after the dot. */
  function GroupValue(g: string): (x: real)
    requires GroupShape(g)
    ensures x >= 0.0
  {
    var a := DigitRun(g);
    if a == |g| then DigitsValue(g) as real
    else
      assert g[a] == '.';
      DotSplitDigits(g, a);
      DigitsValue(g[..a]) as real + FractionValue(g[a + 1..])
  }

  lemma {:induction false} CountDotsSplit(a: string, b: string)
    ensures CountDots(a + b) == CountDots(a) + CountDots(b)
    decreases |a|
  {
    if a != [] {
      assert (a + b)[1..] == a[1..] + b;
      assert (a + b)[0] == a[0];
      CountDotsSplit(a[1..], b);
    } else {
      assert a + b == b;
    }
  }

  lemma {:induction false} NoDotsDigits(s: string)
    requires (forall i :: 0 <= i < |s| ==> IsDecimalChar(s[i])) && CountDots(s) == 0
    ensures AllDigits(s)
    decreases |s|
  {
    if s != [] {
      NoDotsDigits(s[1..]);
    }
  }

  /** In a group, the part after the first non-digit (the dot) is digits. */
  lemma DotSplitDigits(g: string, a: nat)
    requires GroupShape(g) && a == DigitRun(g) && a < |g|
    ensures AllDigits(g[a + 1..])
  {
    assert g[a] == '.';
    OnlyDotFirst(g, a);
    var z := g[a + 1..];
    assert forall i :: 0 <= i < |z| ==> z[i] == g[a + 1 + i];
    NoDotsDigits(z);
  }

  /** With at most one dot, nothing after a dot is another dot. */
  lemma OnlyDotFirst(g: string, a: nat)
    requires a < |g| && g[a] == '.' && CountDots(g) <= 1
    ensures CountDots(g[a + 1..]) == 0
  {
    var x, y, z := g[..a], [g[a]], g[a + 1..];
    assert g == x + (y + z);
    CountDotsSplit(x, y + z);
    CountDotsSplit(y, z);
    assert CountDots(y) == 1;
  }

  // ---------------------------------------------------------------------
  // The extractor
  // ---------------------------------------------------------------------

  /** The `re.search` fallback: the first marked score times 100. */
  function MarkedScore(text: string): (r: Option<real>)
    ensures r.Some? <==> SearchFrom(text, 0).Some?
    ensures r.Some? ==> r.value >= 0.0
  {
    var group := SearchFrom(text, 0);
    if group.Some? then Some(GroupValue(group.value) * 100.0) else None
  }

  /** `extract_risk_score`: the stripped reply as a number, else the first
      marked score, times 100; None when neither is there. */
  function ExtractRiskScore(text: string): (r: Option<real>)
    ensures r.None? <==> PyFloat(Trim(PyBlanks, text)).None? && SearchFrom(text, 0).None?
    ensures PyFloat(Trim(PyBlanks, text)).None? ==> r == MarkedScore(text)
  {
    var number := PyFloat(Trim(PyBlanks, text));
    if number.Some? then Some(number.value * 100.0)
    else
      MarkedScore(text)
  }

  /** A reply that is a number, once stripped, is that number as a
      percentage; otherwise the marked score decides. */
  lemma NumericReplyScaled(text: string)
    ensures var number := PyFloat(Trim(PyBlanks, text));
      && (number.Some? ==> ExtractRiskScore(text) == Some(number.value * 100.0))
      && (number.None? ==> ExtractRiskScore(text) == MarkedScore(text))
  {
  }

  /** The marked score is the value of the first match as a percentage. */
  lemma FirstMatchScored(s: string, d: string)
    requires SearchFrom(s, 0) == Some(d)
    ensures MarkedScore(s) == Some(GroupValue(d) * 100.0)
  {
  }

  /** `get_compliance_risk` after the request: None for any status but 200,
      else the extracted score. */
  function ComplianceRisk(status: int, content: string): (r: Option<real>)
    ensures status != 200 ==> r == None
    ensures status == 200 ==> r == ExtractRiskScore(content)
  {
    if status == 200 then ExtractRiskScore(content) else None
  }

  // ---------------------------------------------------------------------
  // What the extractor finds
  // ---------------------------------------------------------------------

  lemma DigitsAreDecimal(s: string, t: string)
    requires AllDigits(s) && |t| > 0 && !IsDecimalChar(t[0])
    ensures DecimalRun(s + t) == |s|
    decreases |s|
  {
    if s != [] {
      assert (s + t)[1..] == s[1..] + t;
      DigitsAreDecimal(s[1..], t);
    }
  }

  lemma {:induction false} DigitsHaveNoDots(s: string)
    requires AllDigits(s)
    ensures CountDots(s) == 0
    decreases |s|
  {
    if s != [] {
      DigitsHaveNoDots(s[1..]);
    }
  }

  /** Stripping keeps a first character that is not whitespace. */
  lemma TrimKeepsFirst(s: string)
    requires |s| > 0 && !IsSpace(PyBlanks, s[0])
    ensures |Trim(PyBlanks, s)| > 0 && Trim(PyBlanks, s)[0] == s[0]
  {
    assert TrimStart(PyBlanks, s) == s;
  }

  /** Text that starts with a letter is not a Python number. */
  lemma LetterFirstNotNumber(s: string)
    requires |s| > 0 && 'a' <= s[0] <= 'z'
    ensures PyFloat(Trim(PyBlanks, s)) == None
  {
    TrimKeepsFirst(s);
    TrimKeepsFirst(Trim(PyBlanks, s));
    var t := Trim(PyBlanks, Trim(PyBlanks, s));
    assert DigitRun(t) == 0;
  }

  /** A reply that starts with a letter is scored by its marked score. */
  lemma LetterFirstMarked(s: string)
    requires |s| > 0 && 'a' <= s[0] <= 'z'
    ensures ExtractRiskScore(s) == MarkedScore(s)
  {
    LetterFirstNotNumber(s);
    NumericReplyScaled(s);
  }

  lemma MarkerGroup(d: string, after: string)
    requires AllDigits(d) && |d| > 0
    ensures GroupAt(Marker + d + Closing + after, 0) == Some(d)
  {
    var s := Marker + (d + (Closing + after));
    assert Marker + d + Closing + after == s;
    assert s[0..] == s;
    assert s[..|Marker|] == Marker;
    var rest := s[|Marker|..];
    assert rest == d + (Closing + after);
    DigitsAreDecimal(d, Closing + after);
    assert rest[..|d|] == d;
    assert rest[|d|..] == Closing + after;
    assert (Closing + after)[..|Closing|] == Closing;
    DigitsHaveNoDots(d);
    assert IsDigit(d[|d| - 1]);
  }

  lemma WholeGroupValue(n: nat)
    ensures GroupShape(NatToString(n)) && GroupValue(NatToString(n)) == n as real
  {
    var d := NatToString(n);
    DigitsValueOfNatToString(n);
    RenderedNatIsTrimmed(n);
    DigitsHaveNoDots(d);
    assert IsDigit(d[|d| - 1]);
  }

  /** The marker at the very start is the first match. */
  lemma MarkerSearch(d: string, after: string)
    requires AllDigits(d) && |d| > 0
    ensures SearchFrom(Marker + d + Closing + after, 0) == Some(d)
  {
    MarkerGroup(d, after);
    SearchFindsFirst(Marker + d + Closing + after, 0, 0);
  }

  lemma MarkedWholeScore(n: nat, after: string)
    ensures MarkedScore(Marker + NatToString(n) + Closing + after) == Some(n as real * 100.0)
  {
    var d := NatToString(n);
    DigitsValueOfNatToString(n);
    MarkerSearch(d, after);
    WholeGroupValue(n);
    FirstMatchScored(Marker + d + Closing + after, d);
  }

  /** A reply that opens with the marker around a whole number yields
      that number as a percentage. */
  lemma MarkedWholeNumber(n: nat, after: string)
    ensures ExtractRiskScore(Marker + NatToString(n) + Closing + after) == Some(n as real * 100.0)
  {
    var d := NatToString(n);
    var s := Marker + d + Closing + after;
    assert s[0] == Marker[0];
    MarkedWholeScore(n, after);
    LetterFirstMarked(s);
  }

  lemma DecimalCharsRun(s: string, t: string)
    requires (forall i :: 0 <= i < |s| ==> IsDecimalChar(s[i])) && |t| > 0 && !IsDecimalChar(t[0])
    ensures DecimalRun(s + t) == |s|
    decreases |s|
  {
    if s != [] {
      assert (s + t)[1..] == s[1..] + t;
      DecimalCharsRun(s[1..], t);
    }
  }

  /** Any group of the pattern's shape right after the marker is matched. */
  lemma ShapedMarkerGroup(d: string, after: string)
    requires GroupShape(d)
    ensures GroupAt(Marker + d + Closing + after, 0) == Some(d)
  {
    var s := Marker + (d + (Closing + after));
    assert Marker + d + Closing + after == s;
    assert s[0..] == s;
    assert s[..|Marker|] == Marker;
    var rest := s[|Marker|..];
    assert rest == d + (Closing + after);
    DecimalCharsRun(d, Closing + after);
    assert rest[..|d|] == d;
    assert rest[|d|..] == Closing + after;
    assert (Closing + after)[..|Closing|] == Closing;
  }

  /** A decimal group is read with its fraction: `**0.75**` scores 75. */
  lemma MarkedDecimal()
    ensures ExtractRiskScore("risk score of **0.75**") == Some(75.0)
  {
    var d := "0.75";
    var s := Marker + d + Closing + "";
    assert s == "risk score of **0.75**";
    assert CountDots(d) == 1 by {
      assert d[1..][1..][1..][1..] == [];
    }
    ShapedMarkerGroup(d, "");
    SearchFindsFirst(s, 0, 0);
    assert DigitRun(d) == 1 by {
      assert DigitRun(d[1..]) == 0;
    }
    assert d[..1] == "0" && d[2..] == "75";
    assert FractionValue("75") == 0.75 by {
      assert "75"[1..] == "5" && "5"[1..] == [];
    }
    assert GroupValue(d) == 0.75;
    FirstMatchScored(s, d);
    LetterFirstMarked(s);
  }

  /** A marker followed by digits and dots that end in a dot, then `**`,
      is not a match (`**5.**`, `**1.2.**`, `**.**`): the pattern wants a
      digit last. */
  lemma {:induction false} TrailingDotRejected(d: string, after: string)
    requires forall i :: 0 <= i < |d| ==> IsDecimalChar(d[i])
    ensures GroupAt(Marker + d + "." + Closing + after, 0) == None
  {
    var s := Marker + d + "." + Closing + after;
    assert s[0..][..|Marker|] == Marker;
    var rest := s[|Marker|..];
    assert rest == d + "." + Closing + after;
    var k := DecimalRun(rest);
    assert forall i :: 0 <= i <= |d| ==> IsDecimalChar(rest[i]);
    assert rest[|d| + 1] == '*';
    assert k == |d| + 1;
    assert rest[..k][k - 1] == '.';
  }

  /** A reply with no marker anywhere, that is not a number, yields None. */
  lemma NoMarkerNoScore(text: string)
    requires PyFloat(Trim(PyBlanks, text)).None?
    requires forall i :: 0 <= i <= |text| ==> !StartsWith(text[i..], Marker)
    ensures ExtractRiskScore(text) == None
  {
    assert SearchFrom(text, 0) == None by {
      NoMarkerSearch(text, 0);
    }
  }

  lemma {:induction false} NoMarkerSearch(text: string, i: nat)
    requires i <= |text|
    requires forall j :: i <= j <= |text| ==> !StartsWith(text[j..], Marker)
    ensures SearchFrom(text, i) == None
    decreases |text| - i
  {
    if i < |text| {
      NoMarkerSearch(text, i + 1);
    }
  }

  /** The leftmost match wins: a later marked score is ignored once an
      earlier one matches. */
  lemma {:induction false} SearchFindsFirst(s: string, i: nat, j: nat)
    requires i <= j <= |s|
    requires GroupAt(s, j).Some?
    requires forall k :: i <= k < j ==> GroupAt(s, k).None?
    ensures SearchFrom(s, i) == GroupAt(s, j)
    decreases j - i
  {
    if i < j {
      SearchFindsFirst(s, i + 1, j);
    }
  }
}
