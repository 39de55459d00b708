/**
 * The JavaScript string and number primitives the app's credential code
 * relies on: whitespace trimming, ASCII lower-casing, integer printing
 * (`Number.prototype.toString`), `parseInt` without a radix, and the
 * `Number(string)` coercion, restricted to integers.
 */
module JsText {

  /** The WhiteSpace and LineTerminator code points of ECMAScript: what `\s` and `trim` use. */
  predicate IsWhitespace(c: char) {
    c == '\t' || c == '\n' || c == '\U{000B}' || c == '\U{000C}' || c == '\r' || c == ' '
    || c == '\U{00A0}' || c == '\U{1680}' || ('\U{2000}' <= c <= '\U{200A}')
    || c == '\U{2028}' || c == '\U{2029}' || c == '\U{202F}' || c == '\U{205F}'
    || c == '\U{3000}' || c == '\U{FEFF}'
  }

  predicate AllWhitespace(s: string) {
    forall k :: 0 <= k < |s| ==> IsWhitespace(s[k])
  }

  /** The length of the leading run of whitespace. */
  function LeadingBlanks(s: string): (n: nat)
    ensures n <= |s|
    ensures forall k :: 0 <= k < n ==> IsWhitespace(s[k])
    ensures n == |s| || !IsWhitespace(s[n])
  {
    if |s| > 0 && IsWhitespace(s[0]) then 1 + LeadingBlanks(s[1..]) else 0
  }

  /** The length of the trailing run of whitespace. */
  function TrailingBlanks(s: string): (n: nat)
    ensures n <= |s|
    ensures forall k :: |s| - n <= k < |s| ==> IsWhitespace(s[k])
    ensures n == |s| || !IsWhitespace(s[|s| - 1 - n])
  {
    if |s| > 0 && IsWhitespace(s[|s| - 1]) then 1 + TrailingBlanks(s[..|s| - 1]) else 0
  }

  /** `String.prototype.trimStart`. */
  function TrimStart(s: string): (r: string)
    ensures |r| <= |s| && r == s[|s| - |r|..]
    ensures r == [] || !IsWhitespace(r[0])
    ensures AllWhitespace(s[..|s| - |r|])
  {
    s[LeadingBlanks(s)..]
  }

  /** `String.prototype.trimEnd`. */
  function TrimEnd(s: string): (r: string)
    ensures |r| <= |s| && r == s[..|r|]
    ensures r == [] || !IsWhitespace(r[|r| - 1])
    ensures AllWhitespace(s[|r|..])
  {
    s[..|s| - TrailingBlanks(s)]
  }

  /** `String.prototype.trim`. */
  function Trim(s: string): (r: string)
    ensures r == [] || (!IsWhitespace(r[0]) && !IsWhitespace(r[|r| - 1]))
  {
    TrimEnd(TrimStart(s))
  }

  /** trimStart removes exactly a leading run of whitespace. */
  lemma TrimStartExact(w: string, t: string)
    requires AllWhitespace(w)
    requires t == [] || !IsWhitespace(t[0])
    ensures TrimStart(w + t) == t
  {
    var s := w + t;
    var n := LeadingBlanks(s);
    assert forall k :: 0 <= k < |w| ==> s[k] == w[k];
    if t != [] {
      assert s[|w|] == t[0];
    }
    assert n == |w|;
    assert s[|w|..] == t;
  }

  /** trimEnd removes exactly a trailing run of whitespace. */
  lemma TrimEndExact(t: string, w: string)
    requires AllWhitespace(w)
    requires t == [] || !IsWhitespace(t[|t| - 1])
    ensures TrimEnd(t + w) == t
  {
    var s := t + w;
    var n := TrailingBlanks(s);
    assert forall k :: 0 <= k < |w| ==> s[|t| + k] == w[k];
    if t != [] {
      assert s[|t| - 1] == t[|t| - 1];
    }
    assert n == |w|;
    assert s[..|t|] == t;
  }

  /** trim leaves a text with non-blank ends unchanged and strips any surrounding whitespace. */
  lemma TrimExact(w1: string, t: string, w2: string)
    requires AllWhitespace(w1) && AllWhitespace(w2)
    requires t == [] || (!IsWhitespace(t[0]) && !IsWhitespace(t[|t| - 1]))
    ensures Trim(w1 + t + w2) == t
  {
    assert w1 + t + w2 == w1 + (t + w2);
    if t == [] {
      assert AllWhitespace(t + w2);
      assert AllWhitespace(w1 + (t + w2));
      TrimStartExact(w1 + (t + w2), []);
      assert w1 + (t + w2) + [] == w1 + (t + w2);
      TrimEndExact([], []);
    } else {
      assert (t + w2)[0] == t[0];
      TrimStartExact(w1, t + w2);
      TrimEndExact(t, w2);
    }
  }

  /** Trimming twice is trimming once. */
  lemma TrimIdempotent(s: string)
    ensures Trim(Trim(s)) == Trim(s)
  {
    var r := Trim(s);
    assert r == [] + r + [];
    assert AllWhitespace([]);
    TrimExact([], r, []);
  }

  /** ASCII upper-case letters map to lower case; every other character is kept. */
  function LowerChar(c: char): (d: char)
    ensures 'A' <= c <= 'Z' ==> d as int == c as int + 32
    ensures !('A' <= c <= 'Z') ==> d == c
  {
    if 'A' <= c <= 'Z' then (c as int + 32) as char else c
  }

  /** `String.prototype.toLowerCase` on the ASCII range. */
  function ToLowerCase(s: string): (r: string)
    ensures |r| == |s|
    ensures forall k :: 0 <= k < |r| ==> !('A' <= r[k] <= 'Z')
    ensures forall k :: 0 <= k < |r| && !('A' <= s[k] <= 'Z') ==> r[k] == s[k]
  {
    seq(|s|, k requires 0 <= k < |s| => LowerChar(s[k]))
  }

  predicate IsDigit(c: char) {
    '0' <= c <= '9'
  }

  predicate IsUpper(c: char) {
    'A' <= c <= 'Z'
  }

  predicate IsLetterOrDigit(c: char) {
    IsDigit(c) || IsUpper(c) || ('a' <= c <= 'z')
  }

  predicate StartsWith(s: string, prefix: string) {
    |prefix| <= |s| && s[..|prefix|] == prefix
  }

  /** `Array.prototype.join` over texts. */
  function Join(parts: seq<string>, sep: string): string {
    if |parts| == 0 then "" else if |parts| == 1 then parts[0] else parts[0] + sep + Join(parts[1..], sep)
  }

  // ---------------------------------------------------------------------------
  // Numbers

  /** A JavaScript number restricted to integers, plus NaN. */
  datatype Number = Int(value: int) | NaN

  /** `x + 1`. */
  function Succ(x: Number): Number {
    if x.Int? then Int(x.value + 1) else NaN
  }

  /** `x >= k`; NaN compares false. */
  predicate AtLeast(x: Number, k: int) {
    x.Int? && x.value >= k
  }

  function DigitChar(d: int): (c: char)
    requires 0 <= d < 10
    ensures IsDigit(c)
  {
    (48 + d) as char
  }

  /** The value of `c` as a digit in `radix` (10 or 16), if it is one. */
  function DigitValue(c: char, radix: int): (v: int)
    ensures -1 <= v < 16
    ensures radix == 10 ==> (v >= 0 <==> IsDigit(c))
  {
    if IsDigit(c) then c as int - 48
    else if radix == 16 && 'a' <= c <= 'f' then c as int - 'a' as int + 10
    else if radix == 16 && 'A' <= c <= 'F' then c as int - 'A' as int + 10
    else -1
  }

  /** Length of the longest prefix of `s` made of `radix` digits. */
  function DigitRun(s: string, radix: int): (n: nat)
    ensures n <= |s|
    ensures forall k :: 0 <= k < n ==> DigitValue(s[k], radix) >= 0
    ensures n == |s| || DigitValue(s[n], radix) < 0
  {
    if |s| > 0 && DigitValue(s[0], radix) >= 0 then 1 + DigitRun(s[1..], radix) else 0
  }

  predicate AllDigits(s: string, radix: int) {
    forall k :: 0 <= k < |s| ==> DigitValue(s[k], radix) >= 0
  }

  /** The value of a digit string, most significant digit first. */
  function ValueOf(ds: string, radix: nat): nat
    requires AllDigits(ds, radix)
  {
    if |ds| == 0 then 0 else ValueOf(ds[..|ds| - 1], radix) * radix + DigitValue(ds[|ds| - 1], radix)
  }

  /** `n.toString()` for a non-negative integer. */
  function NatToString(n: nat): (r: string)
    ensures |r| > 0 && AllDigits(r, 10)
    ensures |r| > 1 ==> r[0] != '0'
  {
    if n < 10 then [DigitChar(n)] else NatToString(n / 10) + [DigitChar(n % 10)]
  }

  /** `n.toString()` for an integer. */
  function IntToString(n: int): (r: string)
    ensures |r| > 0 && !IsWhitespace(r[0]) && !IsWhitespace(r[|r| - 1])
  {
    if n < 0 then "-" + NatToString(-n) else NatToString(n)
  }

  /** `String(x)` for a number. */
  function NumberToString(x: Number): string {
    if x.Int? then IntToString(x.value) else "NaN"
  }

  /**
   * `parseInt(s)` with no radix: leading whitespace is skipped, one sign is
   * accepted, a `0x`/`0X` prefix selects base 16, and the longest run of
   * digits is read; no digits at all gives NaN.
   */
  function ParseInt(s: string): Number {
    var t := TrimStart(s);
    if |t| > 0 && t[0] == '-' then Negated(Unsigned(t[1..]))
    else if |t| > 0 && t[0] == '+' then Unsigned(t[1..])
    else Unsigned(t)
  }

  /** The unsigned part of `parseInt`: an optional `0x`/`0X` prefix and the longest run of digits. */
  function Unsigned(u: string): Number {
    var hex := |u| >= 2 && u[0] == '0' && (u[1] == 'x' || u[1] == 'X');
    var radix := if hex then 16 else 10;
    var body := if hex then u[2..] else u;
    var n := DigitRun(body, radix);
    var z := body[..n];
    assert AllDigits(z, radix) by {
      assert forall k :: 0 <= k < |z| ==> z[k] == body[k];
    }
    if z == [] then NaN else Int(ValueOf(z, radix))
  }

  function Negated(x: Number): Number {
    if x.Int? then Int(-x.value) else NaN
  }

  /**
   * `Number(s)` for a text: surrounding whitespace is ignored, the empty text
   * is 0, and a signed decimal integer or an unsigned `0x` hexadecimal integer
   * is read exactly; anything else is NaN.
   */
  function StringToNumber(s: string): Number {
    var t := Trim(s);
    if t == [] then Int(0)
    else if |t| > 2 && t[0] == '0' && (t[1] == 'x' || t[1] == 'X') && AllDigits(t[2..], 16) then
      Int(ValueOf(t[2..], 16))
    else if t[0] == '-' || t[0] == '+' then
      if |t| > 1 && AllDigits(t[1..], 10) then
        Int(if t[0] == '-' then -(ValueOf(t[1..], 10) as int) else ValueOf(t[1..], 10))
      else NaN
    else if AllDigits(t, 10) then Int(ValueOf(t, 10))
    else NaN
  }

  lemma {:induction false} ValueOfNatToString(n: nat)
    ensures ValueOf(NatToString(n), 10) == n
    decreases n
  {
    var s := NatToString(n);
    if n < 10 {
      assert s[..0] == [];
    } else {
      ValueOfNatToString(n / 10);
      assert s[..|s| - 1] == NatToString(n / 10);
    }
  }

  lemma DigitRunWhole(s: string, radix: int)
    requires AllDigits(s, radix)
    ensures DigitRun(s, radix) == |s|
  {
  }

  /** A printed natural number, which has no `0x` prefix, reads back whole. */
  lemma UnsignedDecimal(d: string)
    requires |d| > 0 && AllDigits(d, 10) && (|d| > 1 ==> d[0] != '0')
    ensures Unsigned(d) == Int(ValueOf(d, 10))
  {
    DigitRunWhole(d, 10);
    assert d[..|d|] == d;
  }

  /** Reading back a printed integer with `parseInt` gives the same integer. */
  lemma ParseIntRoundTrip(n: int)
    ensures ParseInt(IntToString(n)) == Int(n)
  {
    var m: nat := if n < 0 then -n else n;
    var d := NatToString(m);
    var s := IntToString(n);
    assert LeadingBlanks(s) == 0;
    assert TrimStart(s) == s;
    UnsignedDecimal(d);
    ValueOfNatToString(m);
    if n < 0 {
      assert s[1..] == d;
    } else {
      assert DigitValue(d[0], 10) >= 0;
    }
  }

  lemma TrimPrinted(n: int)
    ensures Trim(IntToString(n)) == IntToString(n)
  {
    var s := IntToString(n);
    assert s == [] + s + [];
    TrimExact([], s, []);
  }

  /** `Number(String(n)) == n` for integers. */
  lemma StringToNumberRoundTrip(n: int)
    ensures StringToNumber(IntToString(n)) == Int(n)
  {
    var m: nat := if n < 0 then -n else n;
    var d := NatToString(m);
    var s := IntToString(n);
    TrimPrinted(n);
    ValueOfNatToString(m);
    if n < 0 {
      assert s[1..] == d;
      assert s[0] == '-';
    } else {
      assert s == d;
      assert !(|s| > 2 && s[0] == '0');
    }
  }

  /** A counter stored with `toString` and read with `parseInt` never loses a value, NaN included. */
  lemma NumberRoundTrip(x: Number)
    ensures ParseInt(NumberToString(x)) == x
  {
    if x.Int? {
      ParseIntRoundTrip(x.value);
    } else {
      assert TrimStart("NaN") == "NaN";
      assert DigitValue('N', 10) < 0;
    }
  }
}
