/** Exact decimal money: canonical decimal text, comparison, and conversion to and
    from integer base units. */
module Money {
  import opened Options

  const MAX_FRACTION_DIGITS := 9
  const MAX_INTEGER_DIGITS := 19
  const MAX_UINT64: nat := 0xFFFF_FFFF_FFFF_FFFF

  datatype Amount = Amount(value: string)

  datatype Error = Overflow | TooPrecise | Negative | NonCanonical | BadScale

  datatype Result<+T> = Ok(value: T) | Err(error: Error)

  // ---------------------------------------------------------------- decimal text

  predicate IsDigit(c: char) { '0' <= c <= '9' }

  predicate AllDigits(s: string) { forall i :: 0 <= i < |s| ==> IsDigit(s[i]) }

  function DigitValue(c: char): nat
    requires IsDigit(c)
  {
    c as int - '0' as int
  }

  /** The number a digit string denotes; the empty string denotes zero. */
  function Num(s: string): nat
    requires AllDigits(s)
  {
    if s == "" then 0 else 10 * Num(s[..|s| - 1]) + DigitValue(s[|s| - 1])
  }

  function Pow10(n: nat): (p: nat)
    ensures p > 0
  {
    if n == 0 then 1 else 10 * Pow10(n - 1)
  }

  function Zeros(n: nat): (z: string)
    ensures |z| == n && AllDigits(z) && forall i :: 0 <= i < n ==> z[i] == '0'
  {
    seq(n, _ => '0')
  }

  /** The scan behind every digit check, stopping at the first character that is not one. */
  method ScanDigits(s: string) returns (ok: bool)
    ensures ok <==> AllDigits(s)
  {
    for i := 0 to |s|
      invariant AllDigits(s[..i])
    {
      if s[i] < '0' || s[i] > '9' {
        return false;
      }
      assert s[..i + 1] == s[..i] + [s[i]];
    }
    assert s[..|s|] == s;
    ok := true;
  }

  lemma {:induction false} NumConcat(a: string, b: string)
    requires AllDigits(a) && AllDigits(b)
    ensures AllDigits(a + b)
    ensures Num(a + b) == Num(a) * Pow10(|b|) + Num(b)
  {
    if b == "" {
      assert a + b == a;
    } else {
      var b' := b[..|b| - 1];
      NumConcat(a, b');
      assert (a + b)[..|a + b| - 1] == a + b';
      TenTimes(Num(a), Pow10(|b'|));
    }
  }

  lemma TenTimes(x: int, p: int)
    ensures x * (10 * p) == 10 * (x * p)
  {
  }

  lemma {:induction false} NumZeros(n: nat)
    ensures Num(Zeros(n)) == 0
  {
    if n > 0 {
      assert Zeros(n)[..n - 1] == Zeros(n - 1);
      NumZeros(n - 1);
    }
  }

  lemma {:induction false} NumBound(s: string)
    requires AllDigits(s)
    ensures Num(s) < Pow10(|s|)
  {
    if s != "" {
      NumBound(s[..|s| - 1]);
    }
  }

  lemma NumOfSplit(s: string, k: nat)
    requires AllDigits(s) && k <= |s|
    ensures Num(s) == Num(s[..k]) * Pow10(|s| - k) + Num(s[k..])
  {
    assert s == s[..k] + s[k..];
    NumConcat(s[..k], s[k..]);
  }

  lemma {:induction false} Pow10Sum(a: nat, b: nat)
    ensures Pow10(a + b) == Pow10(a) * Pow10(b)
  {
    if b > 0 {
      Pow10Sum(a, b - 1);
      assert Pow10(a) * Pow10(b) == 10 * (Pow10(a) * Pow10(b - 1));
    }
  }

  lemma MulAssociates(x: int, y: int, z: int)
    ensures x * (y * z) == (x * y) * z
  {
  }

  lemma MulDistributes(x: int, y: int, z: int)
    ensures (x - y) * z == x * z - y * z
  {
  }

  lemma MulMonotone(x: int, y: int, p: nat)
    requires x <= y
    ensures x * p <= y * p
  {
  }

  // ---------------------------------------------------------------- parsing

  /** Position of the first decimal point, or |s| when there is none. */
  function PointAt(s: string): (k: nat)
    ensures k <= |s|
    ensures '.' !in s[..k]
    ensures k < |s| ==> s[k] == '.'
  {
    if s == "" || s[0] == '.' then 0
    else
      var k := 1 + PointAt(s[1..]);
      assert s[..k] == [s[0]] + s[1..][..k - 1];
      k
  }

  function IntegerPart(s: string): string { s[..PointAt(s)] }

  function FractionPart(s: string): string
  {
    if PointAt(s) < |s| then s[PointAt(s) + 1..] else ""
  }

  function HasPoint(s: string): bool { PointAt(s) < |s| }

  function Parse(s: string): Result<Amount>
  {
    if s == "" then Err(NonCanonical)
    else if s[0] == '-' then Err(Negative)
    else if s[0] == '+' || 'e' in s || 'E' in s then Err(NonCanonical)
    else
      var integer, fraction := IntegerPart(s), FractionPart(s);
      if integer == "" || |integer| > MAX_INTEGER_DIGITS then Err(NonCanonical)
      else if |integer| > 1 && integer[0] == '0' then Err(NonCanonical)
      else if !AllDigits(integer) then Err(NonCanonical)
      else if HasPoint(s) && (fraction == "" || |fraction| > MAX_FRACTION_DIGITS) then Err(NonCanonical)
      else if HasPoint(s) && !AllDigits(fraction) then Err(NonCanonical)
      else Ok(Amount(s))
  }

  /** The grammar the parser is meant to accept, said without its order of checks. */
  predicate Canonical(s: string)
  {
    var i, f := IntegerPart(s), FractionPart(s);
    && 1 <= |i| <= MAX_INTEGER_DIGITS
    && AllDigits(i)
    && (|i| > 1 ==> i[0] != '0')
    && (HasPoint(s) ==> 1 <= |f| <= MAX_FRACTION_DIGITS && AllDigits(f))
  }

  lemma ParseAcceptsCanonical(s: string)
    ensures Parse(s).Ok? <==> Canonical(s)
    ensures Parse(s).Ok? ==> Parse(s).value == Amount(s)
    ensures Parse(s) == Err(Negative) <==> s != "" && s[0] == '-'
  {
    if Canonical(s) {
      var i, f := IntegerPart(s), FractionPart(s);
      assert s == if HasPoint(s) then i + "." + f else i;
      assert s[0] == i[0];
    }
  }

  /** Digits with an optional point and further digits: one to nineteen before it, the first
      of several not a zero, and one to nine after it. */
  predicate IsDecimal(s: string, i: string, f: Option<string>)
  {
    && 1 <= |i| <= 19 && AllDigits(i) && (|i| > 1 ==> i[0] != '0')
    && match f
       case None => s == i
       case Some(g) => s == i + "." + g && 1 <= |g| <= 9 && AllDigits(g)
  }

  lemma {:induction false} PointOf(i: string, rest: string)
    requires AllDigits(i) && (rest == "" || rest[0] == '.')
    ensures PointAt(i + rest) == |i|
  {
    if i == "" {
      assert i + rest == rest;
    } else {
      assert (i + rest)[1..] == i[1..] + rest;
      assert IsDigit(i[0]);
      PointOf(i[1..], rest);
    }
  }

  lemma DecimalIsCanonical(s: string, i: string, f: Option<string>)
    requires IsDecimal(s, i, f)
    ensures Canonical(s)
  {
    var rest := if f.Some? then "." + f.value else "";
    assert s == i + rest;
    PointOf(i, rest);
    assert s[..|i|] == i && (f.Some? ==> s[|i| + 1..] == f.value);
  }

  lemma CanonicalIsDecimal(s: string)
    requires Canonical(s)
    ensures IsDecimal(s, IntegerPart(s), if HasPoint(s) then Some(FractionPart(s)) else None)
  {
    assert s == if HasPoint(s) then IntegerPart(s) + "." + FractionPart(s) else IntegerPart(s);
  }

  /** Parse accepts exactly these texts, each as it stands. */
  lemma ParseIsGrammar(s: string)
    ensures Parse(s).Ok? <==> exists i, f :: IsDecimal(s, i, f)
    ensures Parse(s).Ok? ==> Parse(s).value.value == s
  {
    ParseAcceptsCanonical(s);
    hide Parse, Canonical, IsDecimal, IntegerPart, FractionPart;
    if Canonical(s) { CanonicalIsDecimal(s); }
    forall i, f | IsDecimal(s, i, f) ensures Canonical(s) {
      DecimalIsCanonical(s, i, f);
    }
  }

  /** Amounts a parser produced; the zero value of the type has empty text. */
  predicate Valid(a: Amount) { Canonical(a.value) }

  // ---------------------------------------------------------------- numeric meaning

  function Fraction(a: Amount): string { FractionPart(a.value) }

  /** The amount times 10^scale, exact when the scale covers every fraction digit. */
  function Scaled(a: Amount, scale: nat): nat
    requires Valid(a) && |Fraction(a)| <= scale
  {
    Num(IntegerPart(a.value) + Fraction(a)) * Pow10(scale - |Fraction(a)|)
  }

  lemma ScaledAtWiderScale(a: Amount, scale: nat, wider: nat)
    requires Valid(a) && |Fraction(a)| <= scale <= wider
    ensures Scaled(a, wider) == Scaled(a, scale) * Pow10(wider - scale)
  {
    var digits := Num(IntegerPart(a.value) + Fraction(a));
    Pow10Sum(scale - |Fraction(a)|, wider - scale);
    MulAssociates(digits, Pow10(scale - |Fraction(a)|), Pow10(wider - scale));
  }

  // ---------------------------------------------------------------- comparison

  /** Byte order on text: negative, zero or positive. */
  function TextCmp(a: string, b: string): int
  {
    if a == "" && b == "" then 0
    else if a == "" then -1
    else if b == "" then 1
    else if a[0] < b[0] then -1
    else if a[0] > b[0] then 1
    else TextCmp(a[1..], b[1..])
  }

  function Align(integer: string, fraction: string, width: nat, scale: nat): string
    requires |integer| <= width && |fraction| <= scale
  {
    Zeros(width - |integer|) + integer + fraction + Zeros(scale - |fraction|)
  }

  method AlignText(integer: string, fraction: string, width: nat, scale: nat) returns (b: string)
    requires |integer| <= width && |fraction| <= scale
    ensures b == Align(integer, fraction, width, scale)
  {
    b := "";
    for i := |integer| to width
      invariant b == Zeros(i - |integer|)
    {
      b := b + "0";
    }
    b := b + integer;
    b := b + fraction;
    ghost var head := b;
    for i := |fraction| to scale
      invariant b == head + Zeros(i - |fraction|)
    {
      b := b + "0";
    }
  }

  function Max(a: nat, b: nat): nat { if a < b then b else a }

  function Cmp(a: Amount, b: Amount): int
  {
    var ai, af := IntegerPart(a.value), FractionPart(a.value);
    var bi, bf := IntegerPart(b.value), FractionPart(b.value);
    var scale, width := Max(|af|, |bf|), Max(|ai|, |bi|);
    TextCmp(Align(ai, af, width, scale), Align(bi, bf, width, scale))
  }

  function Sign(x: int): int { if x < 0 then -1 else if x > 0 then 1 else 0 }

  lemma LeadingDigit(s: string)
    requires AllDigits(s) && s != ""
    ensures Num(s) == DigitValue(s[0]) * Pow10(|s| - 1) + Num(s[1..])
    ensures Num(s[1..]) < Pow10(|s| - 1)
  {
    hide Pow10, Num, DigitValue;
    NumOfSplit(s, 1);
    NumBound(s[1..]);
    assert s[..1] == [s[0]];
    NumOfDigit(s[0]);
  }

  lemma NumOfDigit(c: char)
    requires IsDigit(c)
    ensures Num([c]) == DigitValue(c)
  {
    assert [c][..0] == "";
  }

  lemma LeadingDigitDecides(x: nat, y: nat, a: nat, b: nat, p: nat)
    requires x != y && a < p && b < p
    ensures Sign((x * p + a) - (y * p + b)) == Sign(x - y)
  {
    if x < y {
      MulMonotone(x + 1, y, p);
      assert (x + 1) * p == x * p + p;
    } else {
      MulMonotone(y + 1, x, p);
      assert (y + 1) * p == y * p + p;
    }
  }

  /** On digit strings of one length, byte order is numeric order. */
  lemma {:induction false} TextOrderIsNumeric(a: string, b: string)
    requires AllDigits(a) && AllDigits(b) && |a| == |b|
    ensures TextCmp(a, b) == Sign(Num(a) - Num(b))
  {
    if a != "" {
      LeadingDigit(a);
      LeadingDigit(b);
      var x, y := DigitValue(a[0]), DigitValue(b[0]);
      if x == y {
        TextOrderIsNumeric(a[1..], b[1..]);
      } else {
        LeadingDigitDecides(x, y, Num(a[1..]), Num(b[1..]), Pow10(|a| - 1));
      }
    }
  }

  lemma AlignIsScaled(a: Amount, width: nat, scale: nat)
    requires Valid(a) && |IntegerPart(a.value)| <= width && |Fraction(a)| <= scale
    ensures var t := Align(IntegerPart(a.value), Fraction(a), width, scale);
            AllDigits(t) && |t| == width + scale && Num(t) == Scaled(a, scale)
  {
    var i, f := IntegerPart(a.value), Fraction(a);
    hide Num, Pow10, PointAt;
    PaddedNum(width - |i|, i + f, scale - |f|);
    assert Align(i, f, width, scale) == Zeros(width - |i|) + (i + f) + Zeros(scale - |f|);
  }

  /** Zeros before a digit string change nothing; zeros after it multiply by ten. */
  lemma PaddedNum(before: nat, s: string, after: nat)
    requires AllDigits(s)
    ensures AllDigits(Zeros(before) + s + Zeros(after))
    ensures Num(Zeros(before) + s + Zeros(after)) == Num(s) * Pow10(after)
  {
    NumZeros(before);
    NumZeros(after);
    NumConcat(Zeros(before), s);
    NumConcat(Zeros(before) + s, Zeros(after));
  }

  lemma SignScales(x: int, p: nat)
    requires p > 0
    ensures Sign(x * p) == Sign(x)
  {
    if x < 0 { assert x * p < 0; }
    if x > 0 { assert x * p > 0; }
  }

  /** Comparison agrees with the decimal values, at every scale that holds both. */
  lemma CmpIsNumeric(a: Amount, b: Amount, scale: nat)
    requires Valid(a) && Valid(b)
    requires |Fraction(a)| <= scale && |Fraction(b)| <= scale
    ensures Cmp(a, b) == Sign(Scaled(a, scale) - Scaled(b, scale))
  {
    var least := Max(|Fraction(a)|, |Fraction(b)|);
    var width := Max(|IntegerPart(a.value)|, |IntegerPart(b.value)|);
    AlignIsScaled(a, width, least);
    AlignIsScaled(b, width, least);
    TextOrderIsNumeric(Align(IntegerPart(a.value), Fraction(a), width, least),
                       Align(IntegerPart(b.value), Fraction(b), width, least));
    ScaledAtWiderScale(a, least, scale);
    ScaledAtWiderScale(b, least, scale);
    var p := Pow10(scale - least);
    SignScales(Scaled(a, least) - Scaled(b, least), p);
    MulDistributes(Scaled(a, least), Scaled(b, least), p);
  }

  // ---------------------------------------------------------------- base units

  function TrimZeros(s: string): string
  {
    if s != "" && s[0] == '0' then TrimZeros(s[1..]) else s
  }

  /** Reads a non-empty digit string into an unsigned 64-bit integer. */
  function ParseUint(digits: string): Result<nat>
  {
    if digits == "" || !AllDigits(digits) || Num(digits) > MAX_UINT64 then Err(Overflow) else Ok(Num(digits))
  }

  function BaseUnits(a: Amount, decimals: int): Result<nat>
  {
    if decimals < 0 || decimals > MAX_FRACTION_DIGITS then Err(NonCanonical)
    else
      var integer, fraction := IntegerPart(a.value), FractionPart(a.value);
      if |fraction| > decimals then Err(TooPrecise)
      else
        var digits := TrimZeros(integer + fraction + Zeros(decimals - |fraction|));
        if digits == "" then Ok(0) else ParseUint(digits)
  }

  lemma {:induction false} TrimZerosKeepsNum(s: string)
    requires AllDigits(s)
    ensures AllDigits(TrimZeros(s)) && Num(TrimZeros(s)) == Num(s)
    ensures TrimZeros(s) == "" || TrimZeros(s)[0] != '0'
  {
    if s != "" && s[0] == '0' {
      TrimZerosKeepsNum(s[1..]);
      NumOfSplit(s, 1);
      assert s[..1] == Zeros(1);
      NumZeros(1);
    }
  }

  /** BaseUnits is exact, and fails precisely on a bad scale, too many fraction
      digits, or a value past 64 bits, checked in that order. */
  lemma BaseUnitsExact(a: Amount, decimals: int)
    requires Valid(a)
    ensures BaseUnits(a, decimals) ==
            if !(0 <= decimals <= MAX_FRACTION_DIGITS) then Err(NonCanonical)
            else if |Fraction(a)| > decimals then Err(TooPrecise)
            else if Scaled(a, decimals) > MAX_UINT64 then Err(Overflow)
            else Ok(Scaled(a, decimals))
  {
    if 0 <= decimals <= MAX_FRACTION_DIGITS && |Fraction(a)| <= decimals {
      var i, f := IntegerPart(a.value), Fraction(a);
      var z := Zeros(decimals - |f|);
      NumConcat(i, f);
      NumConcat(i + f, z);
      NumZeros(decimals - |f|);
      TrimZerosKeepsNum(i + f + z);
    }
  }

  /** Comparing two amounts is comparing their base units at any scale both fit. */
  lemma CmpAgreesWithBaseUnits(a: Amount, b: Amount, decimals: int)
    requires Valid(a) && Valid(b)
    requires BaseUnits(a, decimals).Ok? && BaseUnits(b, decimals).Ok?
    ensures Cmp(a, b) == Sign(BaseUnits(a, decimals).value - BaseUnits(b, decimals).value)
  {
    BaseUnitsExact(a, decimals);
    BaseUnitsExact(b, decimals);
    CmpIsNumeric(a, b, decimals);
  }

  // ---------------------------------------------------------------- rendering

  function DigitChar(d: nat): (c: char)
    requires d < 10
    ensures IsDigit(c) && DigitValue(c) == d
  {
    ('0' as int + d) as char
  }

  /** Decimal text without leading zeros. */
  function FormatUint(n: nat): (s: string)
    ensures s != "" && AllDigits(s) && Num(s) == n
    ensures |s| > 1 ==> s[0] != '0'
  {
    if n < 10 then
      var s := [DigitChar(n)];
      assert s[..0] == "";
      s
    else
      var front := FormatUint(n / 10);
      var s := front + [DigitChar(n % 10)];
      assert s[..|s| - 1] == front;
      assert front[0] != '0' by {
        if |front| == 1 { assert front[..0] == ""; assert Num(front) == DigitValue(front[0]); }
      }
      s
  }

  function Padded(digits: string, decimals: nat): string
  {
    if |digits| <= decimals then Zeros(decimals - |digits| + 1) + digits else digits
  }

  function NewFromBaseUnits(units: nat, decimals: int): Result<Amount>
  {
    if decimals <= 0 || decimals > MAX_FRACTION_DIGITS then Err(BadScale)
    else
      var digits := FormatUint(units);
      if |digits| > MAX_INTEGER_DIGITS + decimals then Err(Overflow)
      else
        var padded := Padded(digits, decimals);
        Ok(Amount(padded[..|padded| - decimals] + "." + padded[|padded| - decimals..]))
  }

  lemma {:induction false} NumLowerBound(s: string)
    requires AllDigits(s) && s != "" && s[0] != '0'
    ensures Num(s) >= Pow10(|s| - 1)
  {
    if |s| > 1 {
      NumLowerBound(s[..|s| - 1]);
    }
  }

  lemma Uint64HasTwentyDigits(units: nat)
    requires units <= MAX_UINT64
    ensures |FormatUint(units)| <= 20
  {
    var s := FormatUint(units);
    if |s| > 20 {
      NumLowerBound(s);
      Pow10Sum(20, |s| - 21);
      MulMonotone(1, Pow10(|s| - 21), Pow10(20));
      PowerTwenty();
    }
  }

  lemma PowerTwenty()
    ensures Pow10(20) == 100_000_000_000_000_000_000
  {
    assert Pow10(5) == 100_000;
    Pow10Sum(5, 5);
    Pow10Sum(10, 10);
  }

  lemma {:induction false} PointSplits(i: string, f: string)
    requires AllDigits(i)
    ensures PointAt(i + "." + f) == |i|
    ensures IntegerPart(i + "." + f) == i && FractionPart(i + "." + f) == f
  {
    if i != "" {
      PointSplits(i[1..], f);
      assert (i + "." + f)[1..] == i[1..] + "." + f;
    }
  }

  lemma PointedTextIsValid(i: string, f: string)
    requires AllDigits(i) && AllDigits(f)
    requires 1 <= |i| <= MAX_INTEGER_DIGITS && 1 <= |f| <= MAX_FRACTION_DIGITS
    requires |i| > 1 ==> i[0] != '0'
    ensures var a := Amount(i + "." + f);
            Valid(a) && Fraction(a) == f && Scaled(a, |f|) == Num(i + f)
  {
    PointSplits(i, f);
    assert Pow10(0) == 1;
  }

  /** The two halves of a rendered count: valid parts that read back as the count. */
  lemma RenderedParts(digits: string, decimals: nat)
    requires AllDigits(digits) && digits != "" && (|digits| > 1 ==> digits[0] != '0')
    requires 1 <= decimals <= MAX_FRACTION_DIGITS && |digits| <= 20
    ensures var t := Padded(digits, decimals);
            && |t| > decimals && AllDigits(t) && Num(t) == Num(digits)
            && |t| - decimals <= MAX_INTEGER_DIGITS
            && (|t| - decimals > 1 ==> t[0] != '0')
  {
    var pad := |Padded(digits, decimals)| - |digits|;
    assert Padded(digits, decimals) == Zeros(pad) + digits + Zeros(0);
    PaddedNum(pad, digits, 0);
    assert Pow10(0) == 1;
  }

  /** Rendering then converting returns every 64-bit count, at every scale from one
      to nine, and the rendered text is one the parser accepts. */
  lemma RenderRoundTrip(units: nat, decimals: int)
    requires units <= MAX_UINT64 && 1 <= decimals <= MAX_FRACTION_DIGITS
    ensures var r := NewFromBaseUnits(units, decimals);
            && r.Ok?
            && Parse(r.value.value) == r
            && BaseUnits(r.value, decimals) == Ok(units)
  {
    hide Num, Pow10, AllDigits, Parse, BaseUnits, Canonical, PointAt, Scaled;
    Uint64HasTwentyDigits(units);
    RenderedParts(FormatUint(units), decimals);
    var t := Padded(FormatUint(units), decimals);
    var a := PointedDigits(t, decimals);
    assert NewFromBaseUnits(units, decimals) == Ok(a);
    ParseAcceptsCanonical(a.value);
    BaseUnitsExact(a, decimals);
  }

  /** A digit string with a point put in before its last digits. */
  lemma PointedDigits(t: string, decimals: nat) returns (a: Amount)
    requires AllDigits(t) && 1 <= decimals <= MAX_FRACTION_DIGITS
    requires 1 <= |t| - decimals <= MAX_INTEGER_DIGITS && (|t| - decimals > 1 ==> t[0] != '0')
    ensures a == Amount(t[..|t| - decimals] + "." + t[|t| - decimals..])
    ensures Valid(a) && |Fraction(a)| == decimals && Scaled(a, decimals) == Num(t)
  {
    var i, f := t[..|t| - decimals], t[|t| - decimals..];
    assert t == i + f;
    PointedTextIsValid(i, f);
    a := Amount(i + "." + f);
  }

  /** Converting then rendering may change the text but never the value. */
  lemma ConvertThenRenderKeepsValue(a: Amount, decimals: int)
    requires Valid(a) && 1 <= decimals <= MAX_FRACTION_DIGITS && BaseUnits(a, decimals).Ok?
    ensures var r := NewFromBaseUnits(BaseUnits(a, decimals).value, decimals);
            r.Ok? && Valid(r.value) && Cmp(r.value, a) == 0
  {
    BaseUnitsExact(a, decimals);
    var units := BaseUnits(a, decimals).value;
    RenderRoundTrip(units, decimals);
    var r := NewFromBaseUnits(units, decimals).value;
    ParseAcceptsCanonical(r.value);
    CmpAgreesWithBaseUnits(r, a, decimals);
  }

  /** The refusal cases of rendering: only a bad scale, never a 64-bit magnitude. */
  lemma RenderFailsOnlyOnScale(units: nat, decimals: int)
    requires units <= MAX_UINT64
    ensures NewFromBaseUnits(units, decimals).Err? <==> !(1 <= decimals <= MAX_FRACTION_DIGITS)
    ensures NewFromBaseUnits(units, decimals).Err? ==> NewFromBaseUnits(units, decimals) == Err(BadScale)
  {
    Uint64HasTwentyDigits(units);
  }

  // ---------------------------------------------------------------- zero

  function TrimLeftSet(s: string): string
  {
    if s != "" && (s[0] == '0' || s[0] == '.') then TrimLeftSet(s[1..]) else s
  }

  function TrimRightSet(s: string): string
  {
    if s != "" && (s[|s| - 1] == '0' || s[|s| - 1] == '.') then TrimRightSet(s[..|s| - 1]) else s
  }

  /** Trimming every zero and point from both ends leaves nothing. */
  predicate IsZero(a: Amount) { TrimRightSet(TrimLeftSet(a.value)) == "" }

  lemma {:induction false} TrimLeftEmpty(s: string)
    ensures TrimRightSet(TrimLeftSet(s)) == "" <==> forall i :: 0 <= i < |s| ==> s[i] == '0' || s[i] == '.'
  {
    if s != "" && (s[0] == '0' || s[0] == '.') {
      TrimLeftEmpty(s[1..]);
      assert forall i :: 1 <= i < |s| ==> s[i] == s[1..][i - 1];
      if forall i :: 0 <= i < |s[1..]| ==> s[1..][i] == '0' || s[1..][i] == '.' {
        forall i | 0 <= i < |s| ensures s[i] == '0' || s[i] == '.' {
          if i > 0 { assert s[i] == s[1..][i - 1]; }
        }
      }
    } else if s != "" {
      assert TrimLeftSet(s) == s;
      TrimRightKeepsHead(s);
    }
  }

  lemma {:induction false} TrimRightKeepsHead(s: string)
    requires s != "" && s[0] != '0' && s[0] != '.'
    ensures TrimRightSet(s) != ""
  {
    if s[|s| - 1] == '0' || s[|s| - 1] == '.' {
      TrimRightKeepsHead(s[..|s| - 1]);
    }
  }

  lemma {:induction false} NumZeroIffZeros(s: string)
    requires AllDigits(s)
    ensures Num(s) == 0 <==> forall i :: 0 <= i < |s| ==> s[i] == '0'
  {
    if s != "" {
      var front := s[..|s| - 1];
      NumZeroIffZeros(front);
      assert s == front + [s[|s| - 1]];
      assert forall i :: 0 <= i < |front| ==> front[i] == s[i];
    }
  }

  /** The text test for zero is the numeric one. */
  lemma IsZeroIsNumeric(a: Amount)
    requires Valid(a)
    ensures IsZero(a) <==> Scaled(a, |Fraction(a)|) == 0
  {
    hide Num, PointAt;
    var i, f := IntegerPart(a.value), Fraction(a);
    TrimLeftEmpty(a.value);
    NumZeroIffZeros(i + f);
    assert Pow10(0) == 1;
    ZeroesWithPoint(i, f, a.value);
  }

  lemma ZeroesWithPoint(i: string, f: string, s: string)
    requires AllDigits(i) && AllDigits(f)
    requires s == i + "." + f || (s == i && f == "")
    ensures (forall k :: 0 <= k < |s| ==> s[k] == '0' || s[k] == '.')
            <==> (forall k :: 0 <= k < |i + f| ==> (i + f)[k] == '0')
  {
    if forall k :: 0 <= k < |s| ==> s[k] == '0' || s[k] == '.' {
      forall k | 0 <= k < |i + f| ensures (i + f)[k] == '0' {
        if k < |i| { assert (i + f)[k] == s[k]; } else { assert (i + f)[k] == s[k + 1]; }
      }
    }
    if forall k :: 0 <= k < |i + f| ==> (i + f)[k] == '0' {
      forall k | 0 <= k < |s| ensures s[k] == '0' || s[k] == '.' {
        if k < |i| { assert s[k] == (i + f)[k]; } else if k > |i| { assert s[k] == (i + f)[k - 1]; }
      }
    }
  }
}
