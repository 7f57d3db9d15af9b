/** Base58 text and its bytes (the Base58 Encoding Scheme, draft-msporny-base58, sections
    3 and 4). Both directions re-read one number in another base and carry the leading
    zeros over one by one, so each undoes the other. */
module Base58 {
  import opened Options

  type byte = x: int | 0 <= x < 256

  // ---------------------------------------------------------------- positional notation

  /** The two bases in play; naming them keeps every division by a constant. */
  type Radix = b: nat | b == 58 || b == 256 witness 58

  function Times(n: nat, base: Radix): nat { if base == 58 then n * 58 else n * 256 }

  function Quot(n: nat, base: Radix): nat { if base == 58 then n / 58 else n / 256 }

  function Rem(n: nat, base: Radix): nat { if base == 58 then n % 58 else n % 256 }

  lemma Euclid(n: nat, base: Radix)
    ensures n == Times(Quot(n, base), base) + Rem(n, base) && Rem(n, base) < base
    ensures n > 0 ==> Quot(n, base) < n
  {
  }

  ghost predicate DigitsIn(ds: seq<nat>, base: Radix) { forall i :: 0 <= i < |ds| ==> ds[i] < base }

  function Val(ds: seq<nat>, base: Radix): nat
  {
    if ds == [] then 0 else Times(Val(ds[..|ds| - 1], base), base) + ds[|ds| - 1]
  }

  /** Most significant first, without leading zeros; nothing for zero. */
  function Digits(n: nat, base: Radix): seq<nat>
  {
    if n == 0 then [] else Digits(Quot(n, base), base) + [Rem(n, base)]
  }

  lemma {:induction false} DigitsDenote(n: nat, base: Radix)
    ensures Val(Digits(n, base), base) == n && DigitsIn(Digits(n, base), base)
    ensures n > 0 ==> Digits(n, base) != [] && Digits(n, base)[0] != 0
  {
    if n > 0 {
      Euclid(n, base);
      DigitsDenote(Quot(n, base), base);
      LastJoins(Digits(Quot(n, base), base), Rem(n, base), base);
    }
  }

  lemma LastJoins(front: seq<nat>, r: nat, base: Radix)
    requires DigitsIn(front, base) && r < base
    ensures Val(front + [r], base) == Times(Val(front, base), base) + r && DigitsIn(front + [r], base)
  {
    assert (front + [r])[..|front|] == front;
  }

  function Lead(ds: seq<nat>): (k: nat)
    ensures k <= |ds|
  {
    if ds == [] || ds[0] != 0 then 0 else 1 + Lead(ds[1..])
  }

  function Zeros(k: nat): (z: seq<nat>)
    ensures |z| == k
  {
    if k == 0 then [] else [0] + Zeros(k - 1)
  }

  lemma OneMoreZero(k: nat, tail: seq<nat>)
    ensures Zeros(k + 1) + tail == [0] + (Zeros(k) + tail)
  {
    assert Zeros(k + 1) == [0] + Zeros(k);
  }

  lemma {:induction false} LeadSplits(ds: seq<nat>)
    ensures ds == Zeros(Lead(ds)) + ds[Lead(ds)..]
    ensures Lead(ds) < |ds| ==> ds[Lead(ds)] != 0
  {
    if ds == [] || ds[0] != 0 {
      assert Zeros(0) + ds[0..] == ds;
    } else {
      hide Zeros;
      var k, rest := Lead(ds[1..]), ds[1..];
      LeadSplits(rest);
      OneMoreZero(k, rest[k..]);
      assert rest[k..] == ds[k + 1..] && ds == [0] + rest;
    }
  }

  lemma {:induction false} LeadOf(k: nat, ds: seq<nat>)
    requires ds == [] || ds[0] != 0
    ensures Lead(Zeros(k) + ds) == k
  {
    if k == 0 {
      assert Zeros(0) + ds == ds;
    } else {
      assert (Zeros(k) + ds)[1..] == Zeros(k - 1) + ds;
      LeadOf(k - 1, ds);
    }
  }

  lemma {:induction false} ZerosAddNothing(k: nat, ds: seq<nat>, base: Radix)
    ensures Val(Zeros(k) + ds, base) == Val(ds, base)
    decreases k + |ds|
  {
    if ds == [] {
      assert Zeros(k) + ds == Zeros(k);
      if k > 0 {
        ZerosEnd(k);
        ZerosAddNothing(k - 1, [], base);
        assert Zeros(k - 1) + [] == Zeros(k - 1);
      }
    } else {
      assert (Zeros(k) + ds)[..k + |ds| - 1] == Zeros(k) + ds[..|ds| - 1];
      ZerosAddNothing(k, ds[..|ds| - 1], base);
    }
  }

  lemma {:induction false} ZerosEnd(k: nat)
    requires k > 0
    ensures Zeros(k)[..k - 1] == Zeros(k - 1) && Zeros(k)[k - 1] == 0
  {
    if k > 1 { ZerosEnd(k - 1); }
  }

  lemma QuotRem(q: nat, base: Radix, r: nat)
    requires r < base
    ensures Quot(Times(q, base) + r, base) == q && Rem(Times(q, base) + r, base) == r
  {
  }

  lemma {:induction false} ValIsPositive(ds: seq<nat>, base: Radix)
    requires ds != [] && ds[0] != 0
    ensures Val(ds, base) > 0
  {
    if |ds| > 1 {
      ValIsPositive(ds[..|ds| - 1], base);
    } else {
      assert ds[..0] == [];
    }
  }

  /** Digits without a leading zero are the digits of what they denote. */
  lemma {:induction false} DigitsOfVal(ds: seq<nat>, base: Radix)
    requires DigitsIn(ds, base) && (ds == [] || ds[0] != 0)
    ensures Digits(Val(ds, base), base) == ds
  {
    if ds != [] {
      var front := ds[..|ds| - 1];
      ValIsPositive(ds, base);
      DigitsOfVal(front, base);
      QuotRem(Val(front, base), base, ds[|ds| - 1]);
    }
  }

  // ---------------------------------------------------------------- changing base

  function Recode(ds: seq<nat>, from: Radix, to: Radix): seq<nat>
  {
    Zeros(Lead(ds)) + Digits(Val(ds, from), to)
  }

  lemma ValOfTail(ds: seq<nat>, base: Radix)
    ensures Val(ds, base) == Val(ds[Lead(ds)..], base)
  {
    LeadSplits(ds);
    ZerosAddNothing(Lead(ds), ds[Lead(ds)..], base);
  }

  /** Changing base and back changes nothing. */
  lemma RecodeInverts(ds: seq<nat>, from: Radix, to: Radix)
    requires DigitsIn(ds, from)
    ensures Recode(Recode(ds, from, to), to, from) == ds
  {
    var k, n := Lead(ds), Val(ds, from);
    var body := Digits(n, to);
    DigitsDenote(n, to);
    LeadOf(k, body);
    ZerosAddNothing(k, body, to);
    ValOfTail(ds, from);
    LeadSplits(ds);
    DigitsOfVal(ds[k..], from);
  }

  lemma RecodeDigits(ds: seq<nat>, from: Radix, to: Radix)
    ensures DigitsIn(Recode(ds, from, to), to)
  {
    DigitsDenote(Val(ds, from), to);
    ZerosAreDigits(Lead(ds), to);
  }

  lemma {:induction false} ZerosAreDigits(k: nat, base: Radix)
    ensures DigitsIn(Zeros(k), base)
  {
    if k > 0 { ZerosAreDigits(k - 1, base); }
  }

  // ---------------------------------------------------------------- the alphabet

  /** Consecutive characters. */
  function Run(first: char, n: nat): (s: string)
    requires first as int + n < 0xD800
    ensures |s| == n && forall i :: 0 <= i < n ==> s[i] == (first as int + i) as char
  {
    seq(n, i requires 0 <= i < n => (first as int + i) as char)
  }

  /** Digits without zero, capitals without I and O, small letters without l. */
  const ALPHABET := Run('1', 9) + Run('A', 8) + Run('J', 5) + Run('P', 11) + Run('a', 11) + Run('m', 14)

  lemma AlphabetAscends()
    ensures |ALPHABET| == 58 && forall i, j :: 0 <= i < j < 58 ==> ALPHABET[i] < ALPHABET[j]
  {
  }

  /** The digit a character stands for. */
  function Index(c: char): (d: Option<nat>)
    ensures d.Some? ==> d.value < |ALPHABET| && ALPHABET[d.value] == c
  {
    var k := Search(c, 0);
    if k < |ALPHABET| then Some(k) else None
  }

  function Search(c: char, k: nat): (i: nat)
    requires k <= |ALPHABET|
    ensures k <= i <= |ALPHABET| && (i < |ALPHABET| ==> ALPHABET[i] == c)
    ensures forall j :: k <= j < i ==> ALPHABET[j] != c
    decreases |ALPHABET| - k
  {
    if k == |ALPHABET| || ALPHABET[k] == c then k else Search(c, k + 1)
  }

  lemma IndexInverts(d: nat)
    requires d < 58
    ensures Index(ALPHABET[d]) == Some(d)
  {
    AlphabetAscends();
  }

  predicate InAlphabet(text: string) { forall i :: 0 <= i < |text| ==> Index(text[i]).Some? }

  function Text(ds: seq<nat>): (s: string)
    requires forall i :: 0 <= i < |ds| ==> ds[i] < |ALPHABET|
    ensures |s| == |ds| && forall i :: 0 <= i < |s| ==> s[i] == ALPHABET[ds[i]]
  {
    seq(|ds|, i requires 0 <= i < |ds| => ALPHABET[ds[i]])
  }

  function Indices(text: string): (ds: seq<nat>)
    requires InAlphabet(text)
    ensures |ds| == |text| && forall i :: 0 <= i < |ds| ==> ds[i] == Index(text[i]).value
  {
    seq(|text|, i requires 0 <= i < |text| => Index(text[i]).value)
  }

  // ---------------------------------------------------------------- encoding and decoding

  function Encode(raw: seq<byte>): (text: string)
    ensures |text| == |Recode(raw, 256, 58)|
  {
    RecodeDigits(raw, 256, 58);
    AlphabetAscends();
    Text(Recode(raw, 256, 58))
  }

  function Bytes(ds: seq<nat>): (raw: seq<byte>)
    requires forall i :: 0 <= i < |ds| ==> ds[i] < 256
    ensures |raw| == |ds| && forall i :: 0 <= i < |raw| ==> raw[i] == ds[i]
  {
    seq(|ds|, i requires 0 <= i < |ds| => ds[i])
  }

  /** A character outside the alphabet is an error. */
  function Decode(text: string): Option<seq<byte>>
  {
    if InAlphabet(text) then
      RecodeDigits(Indices(text), 58, 256);
      Some(Bytes(Recode(Indices(text), 58, 256)))
    else None
  }

  /** Every byte string, leading zeros included, comes back from its text. */
  lemma DecodeInvertsEncode(raw: seq<byte>)
    ensures Decode(Encode(raw)) == Some(raw)
  {
    var ds: seq<nat> := raw;
    RecodeDigits(ds, 256, 58);
    AlphabetAscends();
    var digits, text := Recode(ds, 256, 58), Encode(raw);
    forall i | 0 <= i < |text| ensures Index(text[i]) == Some(digits[i]) {
      IndexInverts(digits[i]);
    }
    assert Indices(text) == digits;
    RecodeInverts(ds, 256, 58);
    RecodeDigits(digits, 58, 256);
    assert Bytes(ds) == raw;
  }

  /** Every text over the alphabet comes back from its bytes, so the two directions are a
      bijection. */
  lemma EncodeInvertsDecode(text: string)
    requires InAlphabet(text)
    ensures Decode(text).Some? && Encode(Decode(text).value) == text
  {
    AlphabetAscends();
    var ds := Indices(text);
    assert DigitsIn(ds, 58);
    RecodeDigits(ds, 58, 256);
    var raw := Decode(text).value;
    assert raw == Recode(ds, 58, 256);
    RecodeInverts(ds, 58, 256);
    assert Recode(raw, 256, 58) == ds;
    TextOfIndices(text);
  }

  lemma TextOfIndices(text: string)
    requires InAlphabet(text)
    ensures Text(Indices(text)) == text
  {
    hide Index;
    forall i | 0 <= i < |text| ensures Text(Indices(text))[i] == text[i] {
      assert Index(text[i]).Some?;
    }
  }

  // ---------------------------------------------------------------- what a text says

  lemma PublishedRuns()
    ensures Run('1', 9) == "123456789" && Run('A', 8) == "ABCDEFGH" && Run('J', 5) == "JKLMN" && Run('P', 11) == "PQRSTUVWXYZ"
    ensures Run('a', 11) == "abcdefghijk" && Run('m', 14) == "mnopqrstuvwxyz"
  {
  }

  /** The alphabet as published: the digits and letters of both cases in their own order,
      without 0, O, I and l. */
  lemma AlphabetIsPublished()
    ensures ALPHABET == "123456789ABCDEFGHJKLMNPQRSTUVWXYZabcdefghijkmnopqrstuvwxyz"
  {
    hide Run;
    PublishedRuns();
    assert "123456789" + "ABCDEFGH" + "JKLMN" + "PQRSTUVWXYZ" == "123456789ABCDEFGHJKLMNPQRSTUVWXYZ";
    assert "123456789ABCDEFGHJKLMNPQRSTUVWXYZ" + "abcdefghijk" + "mnopqrstuvwxyz"
        == "123456789ABCDEFGHJKLMNPQRSTUVWXYZabcdefghijkmnopqrstuvwxyz";
  }

  function Power(base: Radix, n: nat): nat { if n == 0 then 1 else Times(Power(base, n - 1), base) }

  /** The number digits stand for, the first the most significant. */
  function Number(ds: seq<nat>, base: Radix): nat
  {
    if ds == [] then 0 else ds[0] * Power(base, |ds| - 1) + Number(ds[1..], base)
  }

  lemma TimesAdds(a: nat, b: nat, base: Radix)
    ensures Times(a + b, base) == Times(a, base) + Times(b, base)
  {
  }

  lemma TimesScales(a: nat, b: nat, base: Radix)
    ensures Times(a * b, base) == a * Times(b, base)
  {
  }

  lemma {:induction false} NumberGrows(ds: seq<nat>, r: nat, base: Radix)
    ensures Number(ds + [r], base) == Times(Number(ds, base), base) + r
  {
    hide Times;
    if ds == [] {
      assert [] + [r] == [r] && [r][1..] == [];
      TimesNothing(base);
    } else {
      assert (ds + [r])[1..] == ds[1..] + [r];
      NumberGrows(ds[1..], r, base);
      TimesAdds(ds[0] * Power(base, |ds| - 1), Number(ds[1..], base), base);
      TimesScales(ds[0], Power(base, |ds| - 1), base);
    }
  }

  lemma TimesNothing(base: Radix)
    ensures Times(0, base) == 0
  {
  }

  lemma {:induction false} ValIsNumber(ds: seq<nat>, base: Radix)
    ensures Val(ds, base) == Number(ds, base)
  {
    hide Times;
    if ds != [] {
      var front := ds[..|ds| - 1];
      ValIsNumber(front, base);
      NumberGrows(front, ds[|ds| - 1], base);
      assert front + [ds[|ds| - 1]] == ds;
    }
  }

  /** Encoding writes the same number in the other base, a one for every leading zero byte
      and no other leading one: which text that is leaves no choice. */
  lemma EncodeDenotes(raw: seq<byte>)
    ensures InAlphabet(Encode(raw)) && Number(Indices(Encode(raw)), 58) == Number(raw, 256)
    ensures Lead(Indices(Encode(raw))) == Lead(raw)
  {
    var ds: seq<nat> := raw;
    var k, n := Lead(ds), Val(ds, 256);
    RecodeDigits(ds, 256, 58);
    AlphabetAscends();
    DigitsDenote(n, 58);
    LeadOf(k, Digits(n, 58));
    ZerosAddNothing(k, Digits(n, 58), 58);
    var digits, text := Recode(ds, 256, 58), Encode(raw);
    forall i | 0 <= i < |text| ensures Index(text[i]) == Some(digits[i]) {
      IndexInverts(digits[i]);
    }
    assert Indices(text) == digits;
    ValIsNumber(digits, 58);
    ValIsNumber(ds, 256);
    hide Index, Recode, Encode, Digits;
  }

  /** The third test vector of draft-msporny-base58, section 5. */
  lemma PublishedVector()
    ensures Encode([0x00, 0x00, 0x28, 0x7f, 0xb4, 0xcd]) == "11233QC4"
  {
    hide Index, Search, Recode;
    VectorRecodes();
    RecodeDigits([0x00, 0x00, 0x28, 0x7f, 0xb4, 0xcd], 256, 58);
    AlphabetIsPublished();
  }

  lemma VectorRecodes()
    ensures Recode([0x00, 0x00, 0x28, 0x7f, 0xb4, 0xcd], 256, 58) == [0, 0, 1, 2, 2, 23, 11, 3]
  {
    hide Digits, Val;
    var raw: seq<nat> := [0x00, 0x00, 0x28, 0x7f, 0xb4, 0xcd];
    ValIsNumber(raw, 256);
    VectorNumber();
    VectorDigits();
    assert raw[1..] == [0x00, 0x28, 0x7f, 0xb4, 0xcd] && raw[1..][1..] == [0x28, 0x7f, 0xb4, 0xcd];
    assert Lead(raw[1..][1..]) == 0 && Lead(raw[1..]) == 1 && Lead(raw) == 2;
    assert Zeros(2) == [0, 0] by { assert Zeros(1) == [0]; }
  }

  lemma VectorNumber()
    ensures Number([0x00, 0x00, 0x28, 0x7f, 0xb4, 0xcd], 256) == 679457997
  {
    var ds := [0x00, 0x00, 0x28, 0x7f, 0xb4, 0xcd];
    assert Power(256, 0) == 1 && Power(256, 1) == 256 && Power(256, 2) == 65536 && Power(256, 3) == 16777216;
    assert ds[5..] == [0xcd] && ds[5..][1..] == [] && Number(ds[5..], 256) == 0xcd;
    assert ds[4..][1..] == ds[5..] && Number(ds[4..], 256) == 0xb4cd;
    assert ds[3..][1..] == ds[4..] && Number(ds[3..], 256) == 0x7fb4cd;
    assert ds[2..][1..] == ds[3..] && Number(ds[2..], 256) == 0x287fb4cd;
    assert ds[1..][1..] == ds[2..] && Number(ds[1..], 256) == 0x287fb4cd;
    assert ds[0..] == ds;
  }

  lemma VectorDigits()
    ensures Digits(679457997, 58) == [1, 2, 2, 23, 11, 3]
  {
    assert Digits(1, 58) == [1];
    assert Digits(60, 58) == [1, 2];
    assert Digits(3482, 58) == [1, 2, 2];
    assert Digits(201979, 58) == [1, 2, 2, 23];
    assert Digits(11714793, 58) == [1, 2, 2, 23, 11];
  }

  // ---------------------------------------------------------------- the loops

  lemma {:induction false} TextJoins(a: seq<nat>, b: seq<nat>)
    requires DigitsIn(a, 58) && DigitsIn(b, 58)
    ensures |ALPHABET| == 58 && Text(a + b) == Text(a) + Text(b)
  {
    AlphabetAscends();
  }

  method B58Encode(raw: seq<byte>) returns (out: string)
    ensures out == Encode(raw)
  {
    hide Encode, DigitsText, Val;
    var n := Val(raw, 256);
    out := DigitText(n);
    var k := 0;
    while k < |raw|
      invariant k <= |raw| && Lead(raw) == k + Lead(raw[k..]) && out == Ones(k) + DigitsText(n)
    {
      if raw[k] != 0 {
        break;
      }
      assert raw[k..][1..] == raw[k + 1..];
      out := "1" + out;
      OneMore(k, DigitsText(n));
      k := k + 1;
    }
    assert k < |raw| ==> raw[k..][0] == raw[k];
    EncodeShape(raw);
  }

  lemma OneMore(k: nat, tail: string)
    ensures "1" + (Ones(k) + tail) == Ones(k + 1) + tail
  {
  }

  lemma EncodeShape(raw: seq<byte>)
    ensures Encode(raw) == Ones(Lead(raw)) + DigitsText(Val(raw, 256))
  {
    hide Text, Digits, Val, DigitsText;
    RecodeDigits(raw, 256, 58);
    OnesAreZeros(Lead(raw), Val(raw, 256));
  }

  function Ones(k: nat): string { if k == 0 then "" else "1" + Ones(k - 1) }

  function DigitsText(n: nat): string
  {
    DigitsDenote(n, 58);
    AlphabetAscends();
    Text(Digits(n, 58))
  }

  lemma {:induction false} OnesAreZeros(k: nat, n: nat)
    ensures |ALPHABET| == 58 && DigitsIn(Zeros(k) + Digits(n, 58), 58) && Text(Zeros(k) + Digits(n, 58)) == Ones(k) + DigitsText(n)
  {
    AlphabetAscends();
    DigitsDenote(n, 58);
    ZerosAreDigits(k, 58);
    ZerosText(k);
    TextJoins(Zeros(k), Digits(n, 58));
  }

  lemma {:induction false} ZerosText(k: nat)
    ensures |ALPHABET| == 58 && DigitsIn(Zeros(k), 58) && Text(Zeros(k)) == Ones(k)
  {
    AlphabetAscends();
    ZerosAreDigits(k, 58);
    if k > 0 {
      ZerosText(k - 1);
      TextJoins([0], Zeros(k - 1));
      FirstDigit();
    }
  }

  lemma FirstDigit()
    ensures |ALPHABET| == 58 && Text([0]) == "1"
  {
    AlphabetAscends();
    assert ALPHABET[0] == '1';
  }

  method DigitText(number: nat) returns (out: string)
    ensures out == DigitsText(number)
  {
    hide Text, Val, DigitsText, Digits, Run;
    AlphabetAscends();
    var n := number;
    out := "";
    while n > 0
      invariant DigitsText(number) == DigitsText(n) + out
      decreases n
    {
      var c := ALPHABET[n % 58];
      LastDigit(n);
      assert (DigitsText(n / 58) + [c]) + out == DigitsText(n / 58) + ([c] + out);
      n, out := n / 58, [c] + out;
    }
    LastDigit(0);
  }

  lemma LastDigit(n: nat)
    ensures |ALPHABET| == 58
    ensures DigitsText(n) == if n == 0 then "" else DigitsText(n / 58) + [ALPHABET[n % 58]]
  {
    AlphabetAscends();
    DigitsDenote(n, 58);
    DigitsDenote(n / 58, 58);
    if n > 0 {
      TextJoins(Digits(n / 58, 58), [n % 58]);
    }
  }

  function BitLength(n: nat): nat { if n == 0 then 0 else 1 + BitLength(n / 2) }

  /** Big-endian bytes of a given length. */
  function ToBytes(n: nat, length: nat): seq<byte>
  {
    if length == 0 then [] else ToBytes(n / 256, length - 1) + [n % 256]
  }

  lemma EightHalves(n: nat)
    ensures BitLength(n) <= 8 <==> n < 256
    ensures n >= 256 ==> BitLength(n) == 8 + BitLength(n / 2 / 2 / 2 / 2 / 2 / 2 / 2 / 2)
    ensures n / 2 / 2 / 2 / 2 / 2 / 2 / 2 / 2 == n / 256
  {
    var a := n / 2;
    var b := a / 2;
    var c := b / 2;
    var d := c / 2;
    var e := d / 2;
    var f := e / 2;
    var g := f / 2;
    if n >= 256 {
      assert BitLength(n) == 1 + BitLength(a) && BitLength(a) == 1 + BitLength(b) && BitLength(b) == 1 + BitLength(c);
      assert BitLength(c) == 1 + BitLength(d) && BitLength(d) == 1 + BitLength(e) && BitLength(e) == 1 + BitLength(f);
      assert BitLength(f) == 1 + BitLength(g) && BitLength(g) == 1 + BitLength(g / 2);
      assert BitLength(g / 2) > 0;
    } else {
      SmallBits(n, 8);
    }
  }

  lemma {:induction false} SmallBits(n: nat, k: nat)
    requires n < Two(k)
    ensures BitLength(n) <= k
  {
    if n > 0 { SmallBits(n / 2, k - 1); }
  }

  function Two(k: nat): nat { if k == 0 then 1 else 2 * Two(k - 1) }

  /** As many bytes as the number's bits need are exactly its base-256 digits. */
  lemma {:induction false} MinimalBytes(n: nat)
    ensures ToBytes(n, (BitLength(n) + 7) / 8) == Digits(n, 256)
  {
    if n > 0 {
      EightHalves(n);
      MinimalBytes(n / 256);
      if n < 256 {
        assert BitLength(n) >= 1;
        assert (BitLength(n) + 7) / 8 == 1;
        assert ToBytes(n / 256, 0) == [];
        assert Digits(n / 256, 256) == [];
      } else {
        assert (BitLength(n) + 7) / 8 == 1 + (BitLength(n / 256) + 7) / 8;
      }
    }
  }

  method B58Decode(text: string) returns (raw: Option<seq<byte>>)
    ensures raw == Decode(text)
  {
    hide Digits, Val, ToBytes, BitLength;
    var number := ReadNumber(text);
    if number.None? {
      return None;
    }
    var n := number.value;
    var ones := CountOnes(text);
    MinimalBytes(n);
    DigitsDenote(n, 256);
    var body := ToBytes(n, (BitLength(n) + 7) / 8);
    var zeros := seq(ones, _ => 0 as byte);
    ZeroBytes(ones, zeros);
    raw := Some(zeros + body);
    RecodeDigits(Indices(text), 58, 256);
    assert raw.value == Bytes(Recode(Indices(text), 58, 256));
  }

  lemma {:induction false} ZeroBytes(k: nat, zeros: seq<byte>)
    requires |zeros| == k && forall i :: 0 <= i < k ==> zeros[i] == 0
    ensures zeros == Zeros(k)
  {
    if k > 0 {
      ZeroBytes(k - 1, zeros[1..]);
      assert zeros == [zeros[0]] + zeros[1..];
    }
  }

  method ReadNumber(text: string) returns (n: Option<nat>)
    ensures n.Some? <==> InAlphabet(text)
    ensures n.Some? ==> n.value == Val(Indices(text), 58)
  {
    hide Index;
    var number := 0;
    for i := 0 to |text|
      invariant InAlphabet(text[..i]) && number == Val(Indices(text[..i]), 58)
    {
      assert text[..i + 1][..i] == text[..i] && text[..i + 1][i] == text[i];
      var d := Index(text[i]);
      if d.None? {
        return None;
      }
      assert Indices(text[..i + 1])[..i] == Indices(text[..i]);
      number := number * 58 + d.value;
    }
    assert text[..|text|] == text;
    n := Some(number);
  }

  /** As many leading ones as strip away. */
  method CountOnes(text: string) returns (ones: nat)
    requires InAlphabet(text)
    ensures ones == Lead(Indices(text))
  {
    hide Index;
    ghost var ds := Indices(text);
    ones := 0;
    while ones < |text| && text[ones] == '1'
      invariant ones <= |text| && ones + Lead(ds[ones..]) == Lead(ds)
    {
      FirstLetter(text[ones]);
      assert ds[ones..][1..] == ds[ones + 1..];
      ones := ones + 1;
    }
    if ones < |text| {
      FirstLetter(text[ones]);
      assert ds[ones..][0] == ds[ones];
    }
  }

  lemma FirstLetter(c: char)
    ensures Index(c) == Some(0) <==> c == '1'
  {
    AlphabetAscends();
    IndexInverts(0);
    assert ALPHABET[0] == '1';
    if c == '1' { assert c == ALPHABET[0]; }
  }
}
