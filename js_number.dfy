/** JavaScript numbers as the model tracks them, and the two string-to-number
    conversions the source uses: `parseFloat` (longest numeric prefix) and
    `Number` (whole string, surrounding white space allowed). */
module JsNumber {
  import opened JsText

  /** A JavaScript number: an exact real, or a value that is not finite
      (NaN, +Infinity or -Infinity). Rounding to IEEE doubles is not modelled. */
  datatype Quantity = Finite(value: real) | NotFinite

  predicate IsDigit(c: char) {
    '0' <= c <= '9'
  }

  predicate AllDigits(s: string) {
    forall i :: 0 <= i < |s| ==> IsDigit(s[i])
  }

  /** The number of decimal digits `s` starts with. */
  function LeadingDigits(s: string): (n: nat)
    ensures n <= |s| && AllDigits(s[..n])
    ensures n < |s| ==> !IsDigit(s[n])
  {
    if s == [] || !IsDigit(s[0]) then 0 else 1 + LeadingDigits(s[1..])
  }

  /** The value of a string of decimal digits, most significant first. */
  function DigitsValue(s: string): nat
    requires AllDigits(s)
  {
    if s == [] then 0 else 10 * DigitsValue(s[..|s| - 1]) + (s[|s| - 1] as int - '0' as int)
  }

  function Pow10(k: nat): (r: nat)
    ensures r >= 1
  {
    if k == 0 then 1 else 10 * Pow10(k - 1)
  }

  /** The longest prefix of a string that is a StrDecimalLiteral of ECMA-262:
      an optional sign, then `Infinity`, or digits with an optional fraction
      (at least one digit in all) and an optional complete exponent. */
  datatype Literal =
    | NoLiteral
    | InfinityLiteral(negative: bool, length: nat)
    | DecimalLiteral(negative: bool, whole: string, frac: string, expNegative: bool, exp: string, length: nat)

  /** The exponent part `t` starts with, as (negative, digits, length);
      length 0 when `t` does not start with a complete exponent. */
  function ScanExponent(t: string): (e: (bool, string, nat))
    ensures e.2 <= |t| && AllDigits(e.1)
  {
    if |t| >= 2 && (t[0] == 'e' || t[0] == 'E') then
      var k := if t[1] == '+' || t[1] == '-' then 1 else 0;
      var c := LeadingDigits(t[1 + k..]);
      assert t[1 + k..][..c] == t[1 + k..1 + k + c];
      if c == 0 then (false, "", 0) else (k == 1 && t[1] == '-', t[1 + k..1 + k + c], 1 + k + c)
    else (false, "", 0)
  }

  function ScanLiteral(s: string): (lit: Literal)
    ensures !lit.NoLiteral? ==> 0 < lit.length <= |s|
    ensures lit.DecimalLiteral? ==> AllDigits(lit.whole) && AllDigits(lit.frac) && AllDigits(lit.exp)
  {
    var k := if |s| > 0 && (s[0] == '+' || s[0] == '-') then 1 else 0;
    var negative := k == 1 && s[0] == '-';
    ScanUnsigned(s[k..], negative, k)
  }

  predicate StartsWithInfinity(t: string) {
    |t| >= 8 && t[..8] == "Infinity"
  }

  /** `ScanLiteral` after the sign: `k` characters of sign were already read. */
  function ScanUnsigned(body: string, negative: bool, k: nat): (lit: Literal)
    ensures !lit.NoLiteral? ==> k < lit.length <= k + |body|
    ensures lit.DecimalLiteral? ==> AllDigits(lit.whole) && AllDigits(lit.frac) && AllDigits(lit.exp)
  {
    if StartsWithInfinity(body) then InfinityLiteral(negative, k + 8)
    else
      var a := LeadingDigits(body);
      var dot := a < |body| && body[a] == '.';
      var b := if dot then LeadingDigits(body[a + 1..]) else 0;
      if a + b == 0 then NoLiteral
      else
        var m := a + (if dot then 1 else 0) + b;
        var e := ScanExponent(body[m..]);
        var frac := if dot then body[a + 1..][..b] else "";
        DecimalLiteral(negative, body[..a], frac, e.0, e.1, k + m + e.2)
  }

  /** The exact value of a scanned decimal literal. */
  function LiteralValue(lit: Literal): real
    requires lit.DecimalLiteral? && AllDigits(lit.whole) && AllDigits(lit.frac) && AllDigits(lit.exp)
  {
    var mantissa := DigitsValue(lit.whole) as real + DigitsValue(lit.frac) as real / Pow10(|lit.frac|) as real;
    var scale := Pow10(DigitsValue(lit.exp)) as real;
    var magnitude := if lit.expNegative then mantissa / scale else mantissa * scale;
    if lit.negative then -magnitude else magnitude
  }

  /** `parseFloat(s)`: leading white space is skipped and the longest numeric
      prefix is read; anything else gives NaN. */
  function ParseFloat(s: string): Quantity {
    var lit := ScanLiteral(TrimStart(s));
    if lit.DecimalLiteral? then Finite(LiteralValue(lit)) else NotFinite
  }

  /** Text that, once its leading white space is skipped, starts with no
      sign, digit, dot or `Infinity`. */
  predicate StartsWithoutNumber(s: string) {
    var t := TrimStart(s);
    t == [] || (!IsDigit(t[0]) && t[0] != '+' && t[0] != '-' && t[0] != '.' && !StartsWithInfinity(t))
  }

  /** `parseFloat` finds no number in such text: the result is NaN. */
  lemma ParseFloatNoNumber(s: string)
    requires StartsWithoutNumber(s)
    ensures ParseFloat(s) == NotFinite
  {
    var t := TrimStart(s);
    assert t[0..] == t;
    assert t != [] ==> LeadingDigits(t) == 0;
  }

  predicate IsHexDigit(c: char) {
    IsDigit(c) || 'a' <= c <= 'f' || 'A' <= c <= 'F'
  }

  /** `0x…`, `0o…` and `0b…` integers, which `Number` accepts and `parseFloat` does not. */
  predicate IsNonDecimalInteger(t: string) {
    && |t| >= 3 && t[0] == '0'
    && ((t[1] == 'x' || t[1] == 'X') ==> forall i :: 2 <= i < |t| ==> IsHexDigit(t[i]))
    && ((t[1] == 'o' || t[1] == 'O') ==> forall i :: 2 <= i < |t| ==> '0' <= t[i] <= '7')
    && ((t[1] == 'b' || t[1] == 'B') ==> forall i :: 2 <= i < |t| ==> t[i] == '0' || t[i] == '1')
    && (t[1] == 'x' || t[1] == 'X' || t[1] == 'o' || t[1] == 'O' || t[1] == 'b' || t[1] == 'B')
  }

  /** `!isNaN(Number(s))`: after trimming, `s` is empty, a non-decimal integer
      literal, or in its entirety a decimal literal (`Infinity` included). */
  predicate IsNumberText(s: string) {
    var t := Trim(s);
    t == [] || IsNonDecimalInteger(t) || (var lit := ScanLiteral(t); !lit.NoLiteral? && lit.length == |t|)
  }

  /** The text of a plain decimal: an optional minus, digits, and a fraction
      when `frac` is not empty. */
  function DecimalText(negative: bool, whole: string, frac: string): string {
    (if negative then "-" else "") + whole + (if frac == [] then "" else "." + frac)
  }

  function DecimalValue(negative: bool, whole: string, frac: string): real
    requires AllDigits(whole) && AllDigits(frac)
  {
    var magnitude := DigitsValue(whole) as real + DigitsValue(frac) as real / Pow10(|frac|) as real;
    if negative then -magnitude else magnitude
  }

  /** A plain decimal is scanned in its entirety, with its own digits. */
  lemma ScanDecimalText(negative: bool, whole: string, frac: string)
    requires whole != [] && AllDigits(whole) && AllDigits(frac)
    ensures var lit := ScanLiteral(DecimalText(negative, whole, frac));
      && lit == DecimalLiteral(negative, whole, frac, false, "", |DecimalText(negative, whole, frac)|)
  {
    var s := DecimalText(negative, whole, frac);
    var body := UnsignedText(whole, frac);
    var k := if negative then 1 else 0;
    assert s == (if negative then "-" else "") + body;
    assert s[k..] == body;
    ScanUnsignedText(negative, k, whole, frac);
  }

  function UnsignedText(whole: string, frac: string): string {
    whole + (if frac == [] then "" else "." + frac)
  }

  lemma {:induction false} ScanUnsignedText(negative: bool, k: nat, whole: string, frac: string)
    requires whole != [] && AllDigits(whole) && AllDigits(frac)
    ensures ScanUnsigned(UnsignedText(whole, frac), negative, k)
      == DecimalLiteral(negative, whole, frac, false, "", k + |UnsignedText(whole, frac)|)
  {
    var body := UnsignedText(whole, frac);
    assert body[0] == whole[0];
    assert !StartsWithInfinity(body);
    if frac == [] {
      assert body == whole + [];
      LeadingDigitsOf(whole, []);
      assert body[..|whole|] == whole;
      assert body[|whole|..] == [];
    } else {
      assert body == whole + ("." + frac);
      LeadingDigitsOf(whole, "." + frac);
      var a := |whole|;
      assert body[a] == '.';
      assert body[a + 1..] == frac;
      LeadingDigitsOf(frac, []);
      assert frac + [] == frac;
      assert body[..a] == whole;
      assert body[a + 1..][..|frac|] == frac;
      assert body[a + 1 + |frac|..] == [];
    }
  }

  /** Digits followed by a non-digit (or nothing) are exactly the leading digits. */
  lemma {:induction false} LeadingDigitsOf(digits: string, rest: string)
    requires AllDigits(digits)
    requires rest == [] || !IsDigit(rest[0])
    ensures LeadingDigits(digits + rest) == |digits|
  {
    if digits != [] {
      assert (digits + rest)[1..] == digits[1..] + rest;
      LeadingDigitsOf(digits[1..], rest);
    }
  }

  /** `parseFloat` reads a plain decimal exactly. */
  lemma ParseFloatDecimalText(negative: bool, whole: string, frac: string)
    requires whole != [] && AllDigits(whole) && AllDigits(frac)
    ensures ParseFloat(DecimalText(negative, whole, frac)) == Finite(DecimalValue(negative, whole, frac))
  {
    var s := DecimalText(negative, whole, frac);
    DecimalTextHasNoSpaceAtEnds(negative, whole, frac);
    ScanDecimalText(negative, whole, frac);
    var lit := ScanLiteral(s);
    assert ParseFloat(s) == Finite(LiteralValue(lit));
    LiteralValueOfPlain(lit);
  }

  lemma LiteralValueOfPlain(lit: Literal)
    requires lit.DecimalLiteral? && AllDigits(lit.whole) && AllDigits(lit.frac) && lit.exp == [] && !lit.expNegative
    ensures LiteralValue(lit) == DecimalValue(lit.negative, lit.whole, lit.frac)
  {
    var mantissa := DigitsValue(lit.whole) as real + DigitsValue(lit.frac) as real / Pow10(|lit.frac|) as real;
    assert Pow10(DigitsValue(lit.exp)) as real == 1.0;
    assert mantissa * 1.0 == mantissa;
  }

  /** `Number` accepts a plain decimal. */
  lemma NumberAcceptsDecimalText(negative: bool, whole: string, frac: string)
    requires whole != [] && AllDigits(whole) && AllDigits(frac)
    ensures IsNumberText(DecimalText(negative, whole, frac))
  {
    DecimalTextHasNoSpaceAtEnds(negative, whole, frac);
    ScanDecimalText(negative, whole, frac);
  }

  lemma DecimalTextHasNoSpaceAtEnds(negative: bool, whole: string, frac: string)
    requires whole != [] && AllDigits(whole) && AllDigits(frac)
    ensures var s := DecimalText(negative, whole, frac); TrimStart(s) == s && Trim(s) == s
  {
    var s := DecimalText(negative, whole, frac);
    var first := s[0];
    var last := s[|s| - 1];
    assert first == '-' || first == whole[0];
    assert last == (if frac == [] then whole[|whole| - 1] else frac[|frac| - 1]);
    assert IsDigit(last);
    assert !IsSpace(first);
    assert !IsSpace(last);
  }
}
