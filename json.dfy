/**
 * The JavaScript values that JSON.parse produces for the configuration, and
 * the three coercions server.js applies to them: truthiness (`a || b`,
 * `if (x)`), `String(x)` and `Number.parseInt(x, 10)` followed by
 * `Number.isFinite`.
 */
module Json {
  import opened Wrappers

  /**
   * 2^53: every integer up to this magnitude is a double exactly, and
   * `String(n)` prints it digit for digit.
   */
  const SafeLimit: int := 0x20_0000_0000_0000

  /** Integral numbers that a double holds exactly and `String(n)` prints in plain decimal. */
  type PlainInt = n: int | -SafeLimit <= n <= SafeLimit

  /**
   * 2^1024 - 2^970: the smallest magnitude that rounds to Infinity when an
   * integer is converted to an IEEE-754 double.
   */
  const Overflow: int := 0xffff_ffff_ffff_fc00_0000_0000_0000_0000_0000_0000_0000_0000_0000_0000_0000_0000_0000_0000_0000_0000_0000_0000_0000_0000_0000_0000_0000_0000_0000_0000_0000_0000_0000_0000_0000_0000_0000_0000_0000_0000_0000_0000_0000_0000_0000_0000_0000_0000_0000_0000_0000_0000_0000_0000_0000_0000_0000_0000_0000_0000_0000_0000_0000_0000

  /**
   * A configuration value. Objects and arrays that server.js only coerces
   * are `Compound`, carrying the text `String()` gives them.
   */
  datatype Value =
    | Undefined
    | Null
    | Bool(b: bool)
    | Number(n: PlainInt)
    | Str(s: string)
    | Compound(text: string)

  /** JavaScript truthiness. */
  predicate Truthy(v: Value) {
    match v
    case Undefined => false
    case Null => false
    case Bool(b) => b
    case Number(n) => n != 0
    case Str(s) => s != ""
    case Compound(_) => true
  }

  predicate IsDigit(c: char) {
    '0' <= c <= '9'
  }

  predicate AllDigits(d: string) {
    forall i :: 0 <= i < |d| ==> IsDigit(d[i])
  }

  function DigitValue(c: char): (v: nat)
    requires IsDigit(c)
    ensures v < 10
  {
    c as int - '0' as int
  }

  function DigitChar(v: nat): (c: char)
    requires v < 10
    ensures IsDigit(c) && DigitValue(c) == v
  {
    ('0' as int + v) as char
  }

  /** The decimal digits of `n`, most significant first, without leading zeros. */
  function NatToDecimal(n: nat): (d: string)
    ensures d != [] && AllDigits(d)
  {
    if n < 10 then [DigitChar(n)] else NatToDecimal(n / 10) + [DigitChar(n % 10)]
  }

  /** `String(n)` for an integral number printed in plain decimal. */
  function IntToDecimal(n: int): (d: string)
    ensures d != [] && (d[0] == '-' || IsDigit(d[0]))
  {
    if n < 0 then "-" + NatToDecimal(-n) else NatToDecimal(n)
  }

  /** `String(v)`. */
  function ToText(v: Value): string {
    match v
    case Undefined => "undefined"
    case Null => "null"
    case Bool(b) => if b then "true" else "false"
    case Number(n) => IntToDecimal(n)
    case Str(s) => s
    case Compound(text) => text
  }

  /** The characters `parseInt` skips before the number: StrWhiteSpaceChar of ECMAScript. */
  predicate IsSpace(c: char) {
    || c in {'\t', '\n', '\U{B}', '\U{C}', '\r', ' ', '\U{A0}', '\U{1680}', '\U{2028}', '\U{2029}',
             '\U{202F}', '\U{205F}', '\U{3000}', '\U{FEFF}'}
    || '\U{2000}' <= c <= '\U{200A}'
  }

  /** `s` without its leading white space. */
  function SkipSpace(s: string): string {
    if s != [] && IsSpace(s[0]) then SkipSpace(s[1..]) else s
  }

  /** The length of the longest run of decimal digits at the start of `s`. */
  function DigitRun(s: string): (n: nat)
    ensures n <= |s| && AllDigits(s[..n])
    ensures n < |s| ==> !IsDigit(s[n])
  {
    if s != [] && IsDigit(s[0]) then 1 + DigitRun(s[1..]) else 0
  }

  /** The number a string of decimal digits denotes. */
  function DecimalValue(d: string): nat
    requires AllDigits(d)
  {
    if d == [] then 0 else 10 * DecimalValue(d[..|d| - 1]) + DigitValue(d[|d| - 1])
  }

  /** The text `parseInt` reads digits from: white space and one sign removed. */
  function Unsigned(s: string): string {
    var t := SkipSpace(s);
    if t != [] && (t[0] == '-' || t[0] == '+') then t[1..] else t
  }

  /** Whether the number `parseInt` reads from `s` carries a minus sign. */
  predicate Negative(s: string) {
    var t := SkipSpace(s);
    t != [] && t[0] == '-'
  }

  /**
   * `Number.parseInt(s, 10)`: skip white space, read an optional sign and
   * the longest run of decimal digits; no digit gives NaN (`None`). The
   * result keeps the exact value of the digits: the rounding of values above
   * 2^53 to the nearest double is not modelled, only the overflow to
   * Infinity (`IsFinite`).
   */
  function ParseInt10(s: string): Option<int> {
    var body := Unsigned(s);
    var n := DigitRun(body);
    if n == 0 then None
    else
      var magnitude: int := DecimalValue(body[..n]);
      Some(if Negative(s) then -magnitude else magnitude)
  }

  /** `Number.isFinite` of the double an integer rounds to. */
  predicate IsFinite(n: int) {
    -Overflow < n < Overflow
  }

  /** The status the fallback responder sends: `parseInt(status, 10)`, or 404 when that is not finite. */
  function StatusCode(status: Value): int {
    match ParseInt10(ToText(status))
    case Some(n) => if IsFinite(n) then n else 404
    case None => 404
  }

  lemma {:induction false} SkipSpaceOfPrefix(ws: string, s: string)
    requires forall i :: 0 <= i < |ws| ==> IsSpace(ws[i])
    requires s != [] && !IsSpace(s[0])
    ensures SkipSpace(ws + s) == s
  {
    if ws != [] {
      assert (ws + s)[1..] == ws[1..] + s;
      SkipSpaceOfPrefix(ws[1..], s);
    }
  }

  lemma {:induction false} DigitRunOfDigits(d: string, rest: string)
    requires AllDigits(d)
    requires rest == [] || !IsDigit(rest[0])
    ensures DigitRun(d + rest) == |d|
  {
    if d != [] {
      assert (d + rest)[1..] == d[1..] + rest;
      DigitRunOfDigits(d[1..], rest);
    }
  }

  lemma {:induction false} DecimalRoundTrip(n: nat)
    ensures DecimalValue(NatToDecimal(n)) == n
  {
    if n >= 10 {
      var d := NatToDecimal(n / 10) + [DigitChar(n % 10)];
      assert d[..|d| - 1] == NatToDecimal(n / 10);
      DecimalRoundTrip(n / 10);
    }
  }

  /** The digits of `|n|`. */
  function Magnitude(n: int): string {
    NatToDecimal(if n < 0 then -n else n)
  }

  lemma {:induction false} SkipToDecimal(ws: string, n: int, rest: string)
    requires forall i :: 0 <= i < |ws| ==> IsSpace(ws[i])
    ensures SkipSpace(ws + IntToDecimal(n) + rest) == IntToDecimal(n) + rest
  {
    var text := IntToDecimal(n);
    assert ws + text + rest == ws + (text + rest);
    SkipSpaceOfPrefix(ws, text + rest);
  }

  lemma SignOfDecimal(ws: string, n: int, rest: string)
    requires forall i :: 0 <= i < |ws| ==> IsSpace(ws[i])
    ensures Unsigned(ws + IntToDecimal(n) + rest) == Magnitude(n) + rest
    ensures Negative(ws + IntToDecimal(n) + rest) <==> n < 0
  {
    var s := ws + IntToDecimal(n) + rest;
    var t := IntToDecimal(n) + rest;
    SkipToDecimal(ws, n, rest);
    assert SkipSpace(s) == t;
    if n < 0 {
      assert t[0] == '-';
      assert t[1..] == Magnitude(n) + rest;
    } else {
      assert t == Magnitude(n) + rest;
      assert IsDigit(t[0]);
    }
  }

  /**
   * `parseInt` reads back the decimal text of an integer, whatever white
   * space precedes it and whatever non-digit text follows it.
   */
  lemma ParseIntReadsLeadingInteger(ws: string, n: int, rest: string)
    requires forall i :: 0 <= i < |ws| ==> IsSpace(ws[i])
    requires rest == [] || !IsDigit(rest[0])
    ensures ParseInt10(ws + IntToDecimal(n) + rest) == Some(n)
  {
    var s := ws + IntToDecimal(n) + rest;
    var digits := Magnitude(n);
    SignOfDecimal(ws, n, rest);
    DigitRunOfDigits(digits, rest);
    assert (digits + rest)[..|digits|] == digits;
    DecimalRoundTrip(if n < 0 then -n else n);
    assert DecimalValue(Unsigned(s)[..DigitRun(Unsigned(s))]) == if n < 0 then -n else n;
  }

  /** A numeric status in the configuration is sent unchanged. */
  lemma NumericStatusKept(n: PlainInt)
    ensures StatusCode(Number(n)) == n
  {
    ParseIntReadsLeadingInteger("", n, "");
    assert "" + IntToDecimal(n) + "" == ToText(Number(n));
  }

  /** A textual status is read as its leading integer (`"307 Temporary"` gives 307). */
  lemma TextStatusReadsLeadingInteger(ws: string, n: PlainInt, rest: string)
    requires forall i :: 0 <= i < |ws| ==> IsSpace(ws[i])
    requires rest == [] || !IsDigit(rest[0])
    ensures StatusCode(Str(ws + IntToDecimal(n) + rest)) == n
  {
    ParseIntReadsLeadingInteger(ws, n, rest);
  }

  /** A missing, null or boolean status, or text with no leading integer, falls back to 404. */
  lemma NonNumericStatusIs404(v: Value)
    requires v.Undefined? || v.Null? || v.Bool? || ((v.Str? || v.Compound?) && ParseInt10(ToText(v)).None?)
    ensures StatusCode(v) == 404
  {
    var text := ToText(v);
    if v.Undefined? || v.Null? || v.Bool? {
      assert !IsSpace(text[0]) && !IsDigit(text[0]) && text[0] != '-' && text[0] != '+';
      assert SkipSpace(text) == text;
      assert Unsigned(text) == text;
      assert DigitRun(text) == 0;
    }
  }

  /**
   * A textual status whose leading integer is too large for a double gives
   * Infinity, which `Number.isFinite` rejects: 404 again.
   */
  lemma HugeStatusIs404(ws: string, n: int, rest: string)
    requires forall i :: 0 <= i < |ws| ==> IsSpace(ws[i])
    requires rest == [] || !IsDigit(rest[0])
    requires n >= Overflow || n <= -Overflow
    ensures StatusCode(Str(ws + IntToDecimal(n) + rest)) == 404
  {
    ParseIntReadsLeadingInteger(ws, n, rest);
  }
}
