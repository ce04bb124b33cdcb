/** The number parsers the source relies on, over exact reals:
    JavaScript `parseFloat`, `parseInt(_, 10)` and `parseInt` without a
    radix (which read the longest numeric prefix) and Python `float()`
    (which must consume the whole string). Exponents, `Infinity`/`inf`,
    `nan` and digit separators are not modelled. */
module Numbers {
  import opened Values

  /** Whose notion of whitespace: JavaScript's (WhiteSpace and
      LineTerminator, section 12.2 and 12.3 of ECMAScript) or Python's
      (`str.isspace`). */
  datatype Blanks = JsBlanks | PyBlanks

  /** The characters `trim`, `parseFloat` and `parseInt` (JsBlanks) or
      `str.strip` and `float()` (PyBlanks) skip. Both count the ASCII
      spaces, the Unicode space separators and the line and paragraph
      separators; only JavaScript counts the byte-order mark, only Python
      the information separators U+001C..U+001F and U+0085. */
  predicate IsSpace(w: Blanks, c: char) {
    var n := c as int;
    if n <= 0x20 then
      n == 0x20 || 0x09 <= n <= 0x0D || (w == PyBlanks && 0x1C <= n <= 0x1F)
    else if n < 0x85 then false
    else
      || (w == PyBlanks && n == 0x85)
      || n == 0xA0 || n == 0x1680 || 0x2000 <= n <= 0x200A
      || n == 0x2028 || n == 0x2029 || n == 0x202F || n == 0x205F || n == 0x3000
      || (w == JsBlanks && n == 0xFEFF)
  }

  predicate AllDigits(s: string) {
    forall i :: 0 <= i < |s| ==> IsDigit(s[i])
  }

  function DigitValue(c: char): (d: nat)
    requires IsDigit(c)
    ensures d < 10
  {
    c as int - '0' as int
  }

  /** The natural number an all-digit string denotes. */
  function DigitsValue(s: string): nat
    requires AllDigits(s)
  {
    if s == [] then 0 else DigitsValue(s[..|s| - 1]) * 10 + DigitValue(s[|s| - 1])
  }

  /** The value of the digits after a decimal point: 0.d1d2... */
  function FractionValue(s: string): (x: real)
    requires AllDigits(s)
    ensures 0.0 <= x <= 1.0
  {
    if s == [] then 0.0 else (DigitValue(s[0]) as real + FractionValue(s[1..])) / 10.0
  }

  /** Length of the longest all-digit prefix. */
  function DigitRun(s: string): (k: nat)
    ensures k <= |s|
    ensures AllDigits(s[..k])
    ensures k < |s| ==> !IsDigit(s[k])
  {
    if s == [] || !IsDigit(s[0]) then 0
    else
      var k := 1 + DigitRun(s[1..]);
      assert s[..k] == [s[0]] + s[1..][..k - 1];
      k
  }

  /** Leading whitespace removed (JavaScript `trimStart`, Python `lstrip`). */
  function TrimStart(w: Blanks, s: string): (r: string)
    ensures |r| <= |s| && r == s[|s| - |r|..]
    ensures r != [] ==> !IsSpace(w, r[0])
    ensures forall i :: 0 <= i < |s| - |r| ==> IsSpace(w, s[i])
  {
    if s != [] && IsSpace(w, s[0]) then TrimStart(w, s[1..]) else s
  }

  /** Trailing whitespace removed. */
  function TrimEnd(w: Blanks, s: string): (r: string)
    ensures |r| <= |s| && r == s[..|r|]
    ensures r != [] ==> !IsSpace(w, r[|r| - 1])
    ensures forall i :: |r| <= i < |s| ==> IsSpace(w, s[i])
  {
    if s != [] && IsSpace(w, s[|s| - 1]) then TrimEnd(w, s[..|s| - 1]) else s
  }

  /** Whitespace removed at both ends (JavaScript `trim`, Python `strip`). */
  function Trim(w: Blanks, s: string): (r: string)
    ensures |r| <= |s|
    ensures r != "" ==> !IsSpace(w, r[0]) && !IsSpace(w, r[|r| - 1])
  {
    var t := TrimStart(w, s);
    var r := TrimEnd(w, t);
    assert r != "" ==> r[0] == t[0];
    r
  }

  /** Stripping leaves nothing exactly when the text is all whitespace. */
  lemma TrimBlank(w: Blanks, s: string)
    ensures Trim(w, s) == "" <==> forall i :: 0 <= i < |s| ==> IsSpace(w, s[i])
  {
    var t := TrimStart(w, s);
    if Trim(w, s) == "" {
      assert t == "";
    }
  }

  /** A text of one non-space character is its own trim. */
  lemma TrimKeepsNonSpace(w: Blanks, c: char)
    requires !IsSpace(w, c)
    ensures Trim(w, [c]) == [c]
  {
    var s: string := [c];
    TrimStartStops(w, s);
    TrimEndStops(w, s);
  }

  lemma TrimStartStops(w: Blanks, s: string)
    requires s != [] && !IsSpace(w, s[0])
    ensures TrimStart(w, s) == s
  {
  }

  lemma TrimEndStops(w: Blanks, s: string)
    requires s != [] && !IsSpace(w, s[|s| - 1])
    ensures TrimEnd(w, s) == s
  {
  }

  /** A text of one space character trims to nothing. */
  lemma TrimDropsSpace(w: Blanks, c: char)
    requires IsSpace(w, c)
    ensures Trim(w, [c]) == ""
  {
    assert [c][1..] == [];
  }

  /** The two languages disagree on the byte-order mark and on U+0085, and
      agree on the no-break space. */
  lemma BlanksDiffer()
    ensures Trim(JsBlanks, "\U{FEFF}") == "" && Trim(PyBlanks, "\U{FEFF}") == "\U{FEFF}"
    ensures Trim(PyBlanks, "\U{0085}") == "" && Trim(JsBlanks, "\U{0085}") == "\U{0085}"
    ensures Trim(JsBlanks, "\U{00A0}") == "" && Trim(PyBlanks, "\U{00A0}") == ""
  {
    TrimDropsSpace(JsBlanks, '\U{FEFF}');
    TrimKeepsNonSpace(PyBlanks, '\U{FEFF}');
    TrimDropsSpace(PyBlanks, '\U{0085}');
    TrimKeepsNonSpace(JsBlanks, '\U{0085}');
    TrimDropsSpace(JsBlanks, '\U{00A0}');
    TrimDropsSpace(PyBlanks, '\U{00A0}');
  }

  /** A number read from the front of a string, with how many characters it took. */
  datatype Scan = Scan(value: real, length: nat)

  /** A character a number can start with. */
  predicate NumberStart(c: char) {
    IsDigit(c) || c == '.' || c == '-' || c == '+'
  }

  /** DIGITS, DIGITS '.' DIGITS? or '.' DIGITS, longest first. */
  function ScanDecimal(s: string): (r: Option<Scan>)
    ensures r.Some? ==> 0 < r.value.length <= |s|
    ensures r.Some? ==> IsDigit(s[0]) || s[0] == '.'
  {
    var a := DigitRun(s);
    assert a > 0 ==> s[..a][0] == s[0];
    if a < |s| && s[a] == '.' then
      var b := DigitRun(s[a + 1..]);
      if a + b == 0 then None
      else
        var frac := s[a + 1..][..b];
        Some(Scan(DigitsValue(s[..a]) as real + FractionValue(frac), a + 1 + b))
    else if a == 0 then None
    else Some(Scan(DigitsValue(s[..a]) as real, a))
  }

  /** An optional sign followed by a decimal. */
  function ScanNumber(s: string): (r: Option<Scan>)
    ensures r.Some? ==> 0 < r.value.length <= |s|
    ensures r.Some? ==> NumberStart(s[0])
  {
    if s != [] && (s[0] == '-' || s[0] == '+') then
      match ScanDecimal(s[1..])
      case None => None
      case Some(sc) => Some(Scan(if s[0] == '-' then -sc.value else sc.value, sc.length + 1))
    else ScanDecimal(s)
  }

  /** JavaScript `parseFloat`: None stands for NaN. A number is read only
      where the first character after the leading whitespace can start one. */
  function ParseFloat(s: string): (r: Option<real>)
    ensures r.Some? ==> TrimStart(JsBlanks, s) != [] && NumberStart(TrimStart(JsBlanks, s)[0])
  {
    match ScanNumber(TrimStart(JsBlanks, s))
    case None => None
    case Some(sc) => Some(sc.value)
  }

  /** Python `float(s)` on a string; None stands for the ValueError. The
      whole stripped text must be the number, so blank text is an error. */
  function PyFloat(s: string): (r: Option<real>)
    ensures r.Some? ==> Trim(PyBlanks, s) != [] && NumberStart(Trim(PyBlanks, s)[0])
  {
    var t := Trim(PyBlanks, s);
    match ScanNumber(t)
    case Some(sc) => if sc.length == |t| then Some(sc.value) else None
    case None => None
  }

  /** Whether `parseInt` saw a minus sign, and what follows the sign. */
  function SignAndBody(s: string): (r: (bool, string))
    ensures r.0 <==> TrimStart(JsBlanks, s) != [] && TrimStart(JsBlanks, s)[0] == '-'
  {
    var t := TrimStart(JsBlanks, s);
    (t != [] && t[0] == '-', if t != [] && (t[0] == '-' || t[0] == '+') then t[1..] else t)
  }

  function Signed(neg: bool, n: nat): int {
    if neg then -(n as int) else n as int
  }

  /** JavaScript `parseInt(s, 10)`: None stands for NaN, which is exactly
      when no digit follows the whitespace and the sign. */
  function ParseInt(s: string): (r: Option<int>)
    ensures r.Some? <==> SignAndBody(s).1 != [] && IsDigit(SignAndBody(s).1[0])
  {
    var sb := SignAndBody(s);
    var k := DigitRun(sb.1);
    if k == 0 then None else Some(Signed(sb.0, DigitsValue(sb.1[..k])))
  }

  predicate IsHexDigit(c: char) {
    IsDigit(c) || 'a' <= c <= 'f' || 'A' <= c <= 'F'
  }

  predicate AllHex(s: string) {
    forall i :: 0 <= i < |s| ==> IsHexDigit(s[i])
  }

  function HexDigitValue(c: char): (d: nat)
    requires IsHexDigit(c)
    ensures d < 16
  {
    if IsDigit(c) then c as int - '0' as int
    else if 'a' <= c <= 'f' then c as int - 'a' as int + 10
    else c as int - 'A' as int + 10
  }

  /** The natural number an all-hex-digit string denotes. */
  function HexValue(s: string): nat
    requires AllHex(s)
  {
    if s == [] then 0 else HexValue(s[..|s| - 1]) * 16 + HexDigitValue(s[|s| - 1])
  }

  /** Length of the longest all-hex-digit prefix. */
  function HexRun(s: string): (k: nat)
    ensures k <= |s|
    ensures AllHex(s[..k])
    ensures k < |s| ==> !IsHexDigit(s[k])
  {
    if s == [] || !IsHexDigit(s[0]) then 0
    else
      var k := 1 + HexRun(s[1..]);
      assert s[..k] == [s[0]] + s[1..][..k - 1];
      k
  }

  /** `0x` or `0X`, which switches `parseInt` without a radix to base 16. */
  predicate HexPrefixed(body: string) {
    |body| >= 2 && body[0] == '0' && (body[1] == 'x' || body[1] == 'X')
  }

  /** JavaScript `parseInt(s)` without a radix: base 16 after a `0x` or
      `0X` prefix, base 10 otherwise. None stands for NaN. */
  function ParseIntAuto(s: string): (r: Option<int>)
    ensures !HexPrefixed(SignAndBody(s).1) ==> r == ParseInt(s)
  {
    var (neg, body) := SignAndBody(s);
    if HexPrefixed(body) then
      var h := body[2..];
      var k := HexRun(h);
      if k == 0 then None else Some(Signed(neg, HexValue(h[..k])))
    else ParseInt(s)
  }

  lemma {:induction false} HexRunOfHex(s: string)
    requires AllHex(s)
    ensures HexRun(s) == |s|
    decreases |s|
  {
    if s != [] {
      HexRunOfHex(s[1..]);
    }
  }

  /** After `0x` the digits are read in base 16, where `parseInt(_, 10)`
      stops at the `x` and reads 0. */
  lemma HexLiteralUnsigned(h: string)
    ensures SignAndBody("0x" + h) == (false, "0x" + h)
  {
    var s := "0x" + h;
    assert !IsSpace(JsBlanks, s[0]);
    assert TrimStart(JsBlanks, s) == s;
  }

  lemma HexPrefixRead(h: string)
    requires |h| > 0 && AllHex(h)
    ensures ParseIntAuto("0x" + h) == Some(HexValue(h))
    ensures ParseInt("0x" + h) == Some(0)
  {
    HexLiteralUnsigned(h);
    HexDigitsRead(h);
    DecimalStopsAtX(h);
  }

  lemma HexDigitsRead(h: string)
    requires |h| > 0 && AllHex(h) && SignAndBody("0x" + h) == (false, "0x" + h)
    ensures ParseIntAuto("0x" + h) == Some(HexValue(h))
  {
    var s := "0x" + h;
    assert HexPrefixed(s);
    var hb := s[2..];
    assert hb == h;
    HexRunOfHex(h);
    assert hb[..HexRun(hb)] == h;
  }

  lemma DecimalStopsAtX(h: string)
    requires SignAndBody("0x" + h) == (false, "0x" + h)
    ensures ParseInt("0x" + h) == Some(0)
  {
    var s := "0x" + h;
    var k := DigitRun(s);
    assert k == 1 by {
      var t := s[1..];
      assert t[0] == 'x' && !IsDigit(t[0]);
      assert DigitRun(t) == 0;
      assert IsDigit(s[0]);
    }
    assert s[..k] == "0";
    assert DigitsValue("0") == 0;
  }

  /** "0x10" is 16 to `parseInt` without a radix, 0 with radix 10. */
  lemma HexSixteen()
    ensures ParseIntAuto("0x10") == Some(16) && ParseInt("0x10") == Some(0)
  {
    assert "0x10" == "0x" + "10";
    HexPrefixRead("10");
    assert "10"[..1] == "1";
  }

  /** `parseFloat(s)` as a JavaScript value. */
  function ParseFloatValue(s: string): (v: Value)
    ensures v.Num? || v.NaN?
  {
    match ParseFloat(s)
    case Some(x) => Num(x)
    case None => NaN
  }

  /** `parseInt(s)`, without a radix, as a JavaScript value. */
  function ParseIntValue(s: string): (v: Value)
    ensures v.Num? || v.NaN?
  {
    match ParseIntAuto(s)
    case Some(x) => Num(x as real)
    case None => NaN
  }

  lemma {:induction false} DigitsValueOfNatToString(n: nat)
    ensures AllDigits(NatToString(n)) && DigitsValue(NatToString(n)) == n
    decreases n
  {
    var s := NatToString(n);
    if n >= 10 {
      DigitsValueOfNatToString(n / 10);
      assert s[..|s| - 1] == NatToString(n / 10);
    }
  }

  lemma {:induction false} DigitRunOfDigits(s: string)
    requires AllDigits(s)
    ensures DigitRun(s) == |s|
    decreases |s|
  {
    if s != [] {
      DigitRunOfDigits(s[1..]);
    }
  }

  /** Digits have no whitespace to strip. */
  lemma DigitsAreTrimmed(w: Blanks, s: string)
    requires |s| > 0 && AllDigits(s)
    ensures TrimStart(w, s) == s && Trim(w, s) == s
  {
    assert !IsSpace(w, s[0]);
    assert TrimStart(w, s) == s;
    assert !IsSpace(w, s[|s| - 1]);
    assert TrimEnd(w, s) == s;
  }

  lemma RenderedNatIsTrimmed(n: nat)
    ensures TrimStart(JsBlanks, NatToString(n)) == NatToString(n)
    ensures Trim(PyBlanks, NatToString(n)) == NatToString(n)
    ensures DigitRun(NatToString(n)) == |NatToString(n)|
  {
    DigitsAreTrimmed(JsBlanks, NatToString(n));
    DigitsAreTrimmed(PyBlanks, NatToString(n));
    DigitRunOfDigits(NatToString(n));
  }

  lemma ScanRenderedNat(n: nat)
    ensures ScanNumber(NatToString(n)) == Some(Scan(n as real, |NatToString(n)|))
  {
    var s := NatToString(n);
    DigitsValueOfNatToString(n);
    DigitRunOfDigits(s);
    assert s[..|s|] == s;
  }

  /** Every rendered natural reads back as itself under each parser. */
  lemma NatToStringParses(n: nat)
    ensures ParseFloat(NatToString(n)) == Some(n as real)
    ensures PyFloat(NatToString(n)) == Some(n as real)
    ensures ParseInt(NatToString(n)) == Some(n)
  {
    RenderedNatIsTrimmed(n);
    ScanRenderedNat(n);
    RenderedNatParseInt(n);
  }

  lemma RenderedNatParseInt(n: nat)
    ensures ParseInt(NatToString(n)) == Some(n)
  {
    var s := NatToString(n);
    RenderedNatUnsigned(n);
    DigitsValueOfNatToString(n);
    DigitRunOfDigits(s);
    assert s[..|s|] == s;
  }

  lemma RenderedNatUnsigned(n: nat)
    ensures SignAndBody(NatToString(n)) == (false, NatToString(n))
  {
    var s := NatToString(n);
    DigitsAreTrimmed(JsBlanks, s);
    assert IsDigit(s[0]);
  }
}
