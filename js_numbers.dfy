/** JavaScript truthiness and the decimal parts of `parseInt` and `parseFloat`,
    as the record-access layer and the forms use them. A parse that yields
    `NaN` is `None`. */
module JsNumbers {
  import opened Wrappers
  import JsText

  /** A loosely typed input: ids and counters arrive as numbers or as text,
      and `parseInt` can hand back `NaN`. */
  datatype Scalar = Num(n: int) | Str(s: string) | NotANumber

  /** `!!v` for an optional string: missing and `""` are falsy. */
  predicate TruthyText(v: Option<string>) {
    v.Some? && v.value != ""
  }

  /** `!!v` for an optional scalar: missing, `0`, `""` and `NaN` are falsy. */
  predicate Truthy(v: Option<Scalar>) {
    match v
    case None => false
    case Some(Num(n)) => n != 0
    case Some(Str(s)) => s != ""
    case Some(NotANumber) => false
  }

  /** `a || b` on optional strings. */
  function OrText(a: Option<string>, b: Option<string>): (r: Option<string>)
    ensures TruthyText(a) ==> r == a
    ensures !TruthyText(a) ==> r == b
    ensures TruthyText(r) <==> TruthyText(a) || TruthyText(b)
  {
    if TruthyText(a) then a else b
  }

  /** `a || fallback` for an optional string and a literal fallback. Since `""`
      is the only falsy string, this is the text of `a`, or `fallback` when `a`
      is missing or empty. */
  function OrDefault(a: Option<string>, fallback: string): (r: string)
    ensures TruthyText(a) ==> r == a.value
    ensures !TruthyText(a) ==> r == fallback
    ensures fallback != "" ==> r != ""
  {
    if TruthyText(a) then a.value else fallback
  }

  /** `a || b` on optional scalars. */
  function OrScalar(a: Option<Scalar>, b: Option<Scalar>): (r: Option<Scalar>)
    ensures Truthy(a) ==> r == a
    ensures !Truthy(a) ==> r == b
    ensures Truthy(r) <==> Truthy(a) || Truthy(b)
  {
    if Truthy(a) then a else b
  }

  predicate IsDigit(c: char) {
    '0' <= c <= '9'
  }

  function DigitValue(c: char): nat
    requires IsDigit(c)
  {
    c as int - '0' as int
  }

  function DigitChar(d: nat): (c: char)
    requires d < 10
    ensures IsDigit(c) && DigitValue(c) == d
  {
    ('0' as int + d) as char
  }

  predicate AllDigits(s: string) {
    forall k :: 0 <= k < |s| ==> IsDigit(s[k])
  }

  /** The value of a string of decimal digits, read left to right. */
  function DigitsValue(ds: string): nat
    requires AllDigits(ds)
  {
    if ds == [] then 0 else DigitsValue(ds[..|ds| - 1]) * 10 + DigitValue(ds[|ds| - 1])
  }

  /** The longest prefix of `s` made of decimal digits. */
  function LeadingDigits(s: string): (r: string)
    ensures AllDigits(r) && r <= s
    ensures |r| < |s| ==> !IsDigit(s[|r|])
  {
    if s != [] && IsDigit(s[0]) then [s[0]] + LeadingDigits(s[1..]) else []
  }

  /** Splits off a leading `+` or `-`; the flag is true for `-`. */
  function SplitSign(t: string): (bool, string) {
    if t != [] && (t[0] == '-' || t[0] == '+') then (t[0] == '-', t[1..]) else (false, t)
  }

  /** `parseInt(s)` with radix 10: leading white space and one sign are
      skipped, then the longest run of digits is read; no digit gives `NaN`. */
  function ParseInt(s: string): (r: Option<int>)
    ensures r.None? <==> LeadingDigits(SplitSign(JsText.TrimStart(s)).1) == []
    ensures r.Some? && r.value < 0 ==> SplitSign(JsText.TrimStart(s)).0
  {
    var (negative, u) := SplitSign(JsText.TrimStart(s));
    var ds := LeadingDigits(u);
    if ds == [] then None
    else
      assert u[0] == ds[0];
      var mag: int := DigitsValue(ds);
      Some(if negative then -mag else mag)
  }

  /** `parseInt(v)` for a loosely typed value: a whole number parses to
      itself, `undefined` and `NaN` give `NaN`. */
  function ParseIntOf(v: Option<Scalar>): (r: Option<int>)
    ensures v.None? ==> r.None?
    ensures v == Some(NotANumber) ==> r.None?
    ensures forall n :: v == Some(Num(n)) ==> r == Some(n)
  {
    match v
    case None => None
    case Some(Num(n)) => Some(n)
    case Some(Str(s)) => ParseInt(s)
    case Some(NotANumber) => None
  }

  /** A parse result put back into a JavaScript value. */
  function FromParsed(p: Option<int>): (v: Scalar)
    ensures ParseIntOf(Some(v)) == p
  {
    match p
    case Some(n) => Num(n)
    case None => NotANumber
  }

  function Pow10(k: nat): (p: nat)
    ensures p > 0
  {
    if k == 0 then 1 else 10 * Pow10(k - 1)
  }

  /** `parseFloat(s)` for plain decimal text: optional white space and sign,
      digits, and an optional fraction after `.`; at least one digit must be
      present, otherwise the result is `NaN`. */
  function ParseFloat(s: string): (r: Option<real>)
    ensures r.None? <==> FloatParts(s).1 == [] && FloatParts(s).2 == []
    ensures r.Some? && r.value < 0.0 ==> FloatParts(s).0
  {
    var p := FloatParts(s);
    if p.1 == [] && p.2 == [] then None
    else
      var mag := DecimalValue(p.1, p.2);
      Some(if p.0 then -mag else mag)
  }

  /** The sign, the digits before `.` and the digits after it that
      `parseFloat` reads: after leading white space and an optional sign, the
      longest run of digits, then, when a `.` follows it, the longest run of
      digits after the `.`. */
  function FloatParts(s: string): (p: (bool, string, string))
    ensures AllDigits(p.1) && AllDigits(p.2)
    ensures var (negative, u) := SplitSign(JsText.TrimStart(s));
      && p.0 == negative
      && p.1 <= u
      && (|p.1| < |u| ==> !IsDigit(u[|p.1|]))
      && (|p.1| < |u| && u[|p.1|] == '.' ==>
            p.2 <= u[|p.1| + 1..] && (|p.1| + 1 + |p.2| < |u| ==> !IsDigit(u[|p.1| + 1 + |p.2|])))
      && (!(|p.1| < |u| && u[|p.1|] == '.') ==> p.2 == [])
  {
    var (negative, u) := SplitSign(JsText.TrimStart(s));
    var whole := LeadingDigits(u);
    var rest := u[|whole|..];
    var fraction := if rest != [] && rest[0] == '.' then LeadingDigits(rest[1..]) else [];
    (negative, whole, fraction)
  }

  /** The value of the decimal numeral `whole.fraction`. */
  function DecimalValue(whole: string, fraction: string): (v: real)
    requires AllDigits(whole) && AllDigits(fraction)
    ensures v >= DigitsValue(whole) as real >= 0.0
  {
    var f := DigitsValue(fraction) as real / Pow10(|fraction|) as real;
    assert f >= 0.0;
    DigitsValue(whole) as real + f
  }

  /** `String(n)` for a natural number: its decimal digits, most significant first. */
  function NatText(n: nat): (s: string)
    ensures s != [] && AllDigits(s)
  {
    if n < 10 then [DigitChar(n)] else NatText(n / 10) + [DigitChar(n % 10)]
  }

  /** `String(n)` for a whole number. */
  function DecimalText(n: int): (s: string)
    ensures s != []
  {
    if n < 0 then "-" + NatText(-n) else NatText(n)
  }

  lemma {:induction false} NatTextValue(n: nat)
    ensures DigitsValue(NatText(n)) == n
  {
    if n >= 10 {
      var s := NatText(n);
      assert s[..|s| - 1] == NatText(n / 10);
      NatTextValue(n / 10);
    }
  }

  lemma LeadingDigitsOfDigits(s: string)
    requires AllDigits(s)
    ensures LeadingDigits(s) == s
  {
  }

  /** `parseInt(String(n)) === n`: printing a whole number and parsing the
      text back gives the number. */
  lemma ParseIntOfDecimalText(n: int)
    ensures ParseInt(DecimalText(n)) == Some(n)
  {
    var m := if n < 0 then -n else n;
    ParseIntOfDigits(NatText(m));
    NatTextValue(m);
  }

  /** Digit text, with or without a leading minus, parses to its value. */
  lemma ParseIntOfDigits(ds: string)
    requires ds != [] && AllDigits(ds)
    ensures ParseInt(ds) == Some(DigitsValue(ds))
    ensures ParseInt("-" + ds) == Some(-(DigitsValue(ds) as int))
  {
    assert IsDigit(ds[0]);
    LeadingDigitsOfDigits(ds);
    assert JsText.TrimStart(ds) == ds;
    assert SplitSign(ds) == (false, ds);
    var t := "-" + ds;
    assert t[0] == '-' && t[1..] == ds;
    assert JsText.TrimStart(t) == t;
    assert SplitSign(t) == (true, ds);
  }

  /** Empty or all-white-space text is `NaN` to both parsers. */
  lemma BlankIsNotANumber(s: string)
    requires JsText.IsBlank(s)
    ensures ParseInt(s).None? && ParseFloat(s).None?
  {
  }

  /** `parseFloat(String(n)) === n` for a natural number. */
  lemma ParseFloatOfNatText(n: nat)
    ensures ParseFloat(NatText(n)) == Some(n as real)
  {
    var digits := NatText(n);
    FloatPartsOfDigits(digits);
    assert ParseFloat(digits) == Some(DecimalValue(digits, []));
    WholeDecimalValue(digits);
    NatTextValue(n);
  }

  lemma WholeDecimalValue(ds: string)
    requires AllDigits(ds)
    ensures DecimalValue(ds, []) == DigitsValue(ds) as real
  {
  }

  lemma FloatPartsOfDigits(ds: string)
    requires ds != [] && AllDigits(ds)
    ensures FloatParts(ds) == (false, ds, [])
  {
    assert IsDigit(ds[0]);
    assert JsText.TrimStart(ds) == ds;
    assert SplitSign(ds) == (false, ds);
    LeadingDigitsOfDigits(ds);
    assert ds[|ds|..] == [];
  }

  /** An id passed as the numeric string `"42"` is coerced to the same
      integer as the number `42`. */
  lemma NumericTextCoercesLikeNumber(n: int)
    ensures ParseIntOf(Some(Str(DecimalText(n)))) == ParseIntOf(Some(Num(n))) == Some(n)
  {
    ParseIntOfDecimalText(n);
  }
}
