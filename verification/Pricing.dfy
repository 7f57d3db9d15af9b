/** Declared USD rates, the 128-bit price computation and the per-request price cache. */
module Pricing {
  import opened Money

  type Mint = string

  const USD_SCALE := 6
  const USD_SCALE_FACTOR: nat := 1_000_000
  const WORD: nat := 0x1_0000_0000_0000_0000

  datatype Rate = Rate(decimals: nat, usd: Amount)

  type Rates = map<Mint, Rate>

  datatype PriceError = NoRate | BadAmount(cause: Error) | CapInvalid | RateInvalid

  datatype Price = Priced(usd: nat) | Unpriced(error: PriceError)

  // ---------------------------------------------------------------- 128-bit scaling

  /** units * rate / 10^6 through a 128-bit product, saturating when the quotient
      does not fit in 64 bits. */
  function ScaleToUsd(units: nat, microUsdPerToken: nat): nat
    requires units <= MAX_UINT64 && microUsdPerToken <= MAX_UINT64
  {
    var product := units * microUsdPerToken;
    var hi, lo := product / WORD, product % WORD;
    if hi >= USD_SCALE_FACTOR then MAX_UINT64 else (hi * WORD + lo) / USD_SCALE_FACTOR
  }

  function Min(a: nat, b: nat): nat { if a < b then a else b }

  /** The high word decides saturation exactly: the result is the true quotient
      capped at the largest 64-bit integer. */
  lemma ScaleIsCappedQuotient(units: nat, rate: nat)
    requires units <= MAX_UINT64 && rate <= MAX_UINT64
    ensures ScaleToUsd(units, rate) == Min(units * rate / USD_SCALE_FACTOR, MAX_UINT64)
    ensures USD_SCALE_FACTOR == 1_000_000 && MAX_UINT64 == 18_446_744_073_709_551_615
  {
    HighWordDecides(units * rate);
  }

  lemma HighWordDecides(product: nat)
    ensures product / WORD >= USD_SCALE_FACTOR <==> product / USD_SCALE_FACTOR > MAX_UINT64
  {
    var hi, lo := product / WORD, product % WORD;
    assert product == hi * WORD + lo;
    if hi >= USD_SCALE_FACTOR {
      assert product >= USD_SCALE_FACTOR * WORD;
    } else {
      assert product < USD_SCALE_FACTOR * WORD;
    }
  }

  lemma MulMonotoneBoth(a: nat, b: nat, c: nat, d: nat)
    requires a <= c && b <= d
    ensures a * b <= c * d
  {
    assert a * b <= c * b;
    assert c * b <= c * d;
  }

  lemma ScaleIsMonotone(units: nat, rate: nat, units': nat, rate': nat)
    requires units <= units' <= MAX_UINT64 && rate <= rate' <= MAX_UINT64
    ensures ScaleToUsd(units, rate) <= ScaleToUsd(units', rate')
  {
    ScaleIsCappedQuotient(units, rate);
    ScaleIsCappedQuotient(units', rate');
    MulMonotoneBoth(units, rate, units', rate');
  }

  // ---------------------------------------------------------------- prices

  function ToMicro(a: Amount): Price
  {
    if IsZero(a) then Unpriced(CapInvalid)
    else
      var micro := BaseUnits(a, USD_SCALE);
      if micro.Err? then Unpriced(CapInvalid) else Priced(micro.value)
  }

  lemma ToMicroIsPositive(a: Amount)
    requires Valid(a) && ToMicro(a).Priced?
    ensures 0 < ToMicro(a).usd <= MAX_UINT64
    ensures |Fraction(a)| <= USD_SCALE && ToMicro(a).usd == Scaled(a, USD_SCALE)
  {
    BaseUnitsExact(a, USD_SCALE);
    IsZeroIsNumeric(a);
    var f := |Fraction(a)|;
    ScaledAtWiderScale(a, f, USD_SCALE);
    assert Scaled(a, f) > 0;
    MulMonotone(1, Scaled(a, f), Pow10(USD_SCALE - f));
  }

  lemma ToMicroFits(a: Amount)
    ensures ToMicro(a).Priced? ==> ToMicro(a).usd <= MAX_UINT64
  {
  }

  function PriceOf(rates: Rates, amount: Amount, mint: Mint): (p: Price)
    ensures p.Priced? ==> p.usd <= MAX_UINT64
  {
    if mint !in rates then Unpriced(NoRate)
    else
      var units := BaseUnits(amount, rates[mint].decimals);
      if units.Err? then Unpriced(BadAmount(units.error))
      else
        var perToken := ToMicro(rates[mint].usd);
        if perToken.Unpriced? then perToken
        else if perToken.usd == 0 then Unpriced(RateInvalid)
        else
          ScaleIsCappedQuotient(units.value, perToken.usd);
          Priced(ScaleToUsd(units.value, perToken.usd))
  }

  /** An amount is priced exactly when its mint has a rate, the amount is a 64-bit count of
      the mint's base units, and the rate is a positive 64-bit count of micro-dollars. */
  lemma PricedExactly(rates: Rates, amount: Amount, mint: Mint)
    requires Valid(amount) && (mint in rates ==> Valid(rates[mint].usd))
    ensures PriceOf(rates, amount, mint).Priced? <==>
              && mint in rates
              && |Fraction(amount)| <= rates[mint].decimals <= MAX_FRACTION_DIGITS
              && Scaled(amount, rates[mint].decimals) <= MAX_UINT64
              && |Fraction(rates[mint].usd)| <= USD_SCALE && 0 < Scaled(rates[mint].usd, USD_SCALE) <= MAX_UINT64
  {
    if mint in rates {
      var usd := rates[mint].usd;
      BaseUnitsExact(amount, rates[mint].decimals);
      BaseUnitsExact(usd, USD_SCALE);
      IsZeroIsNumeric(usd);
      if |Fraction(usd)| <= USD_SCALE {
        ScaledAtWiderScale(usd, |Fraction(usd)|, USD_SCALE);
        if Scaled(usd, |Fraction(usd)|) > 0 { MulMonotone(1, Scaled(usd, |Fraction(usd)|), Pow10(USD_SCALE - |Fraction(usd)|)); }
      }
      if ToMicro(usd).Priced? { ToMicroIsPositive(usd); }
    }
  }

  /** A price with each mint's rate parsed at most once per request. */
  class PriceCache {
    const rates: Rates
    var micro: map<Mint, nat>

    ghost predicate Valid()
      reads this
    {
      forall m :: m in micro ==> m in rates && ToMicro(rates[m].usd) == Priced(micro[m])
    }

    constructor (rates: Rates)
      ensures Valid() && this.rates == rates && micro == map[]
    {
      this.rates := rates;
      micro := map[];
    }

    /** Whatever was asked before, the answer is the uncached one. */
    method UsdValue(amount: Amount, mint: Mint) returns (p: Price)
      requires Valid()
      modifies this
      ensures Valid()
      ensures p == PriceOf(rates, amount, mint)
      ensures old(micro.Keys) <= micro.Keys <= old(micro.Keys) + {mint}
    {
      if mint !in rates {
        return Unpriced(NoRate);
      }
      var units := BaseUnits(amount, rates[mint].decimals);
      if units.Err? {
        return Unpriced(BadAmount(units.error));
      }
      var perToken := 0;
      if mint in micro {
        perToken := micro[mint];
      } else {
        var parsed := ToMicro(rates[mint].usd);
        if parsed.Unpriced? {
          return parsed;
        }
        perToken := parsed.usd;
        micro := micro[mint := perToken];
      }
      if perToken == 0 {
        return Unpriced(RateInvalid);
      }
      p := Priced(ScaleToUsd(units.value, perToken));
    }
  }

  // ---------------------------------------------------------------- what a price means

  /** An amount in billionths of a unit, the finest a valid amount can be. */
  ghost function Nano(a: Amount): nat
    requires Valid(a)
  {
    Scaled(a, MAX_FRACTION_DIGITS)
  }

  /** What a trade is really worth at a declared rate, exactly, in 10^-18 USD. */
  ghost function TrueAtto(amount: Amount, rate: Rate): nat
    requires Valid(amount) && Valid(rate.usd)
  {
    Nano(amount) * Nano(rate.usd)
  }

  const ATTO_PER_MICRO: nat := 1_000_000_000_000

  /** The two factors of a price are the amount and the rate as integers. */
  lemma PriceFactors(amount: Amount, rate: Rate, units: nat, perToken: nat)
    requires Valid(amount) && Valid(rate.usd)
    requires BaseUnits(amount, rate.decimals) == Ok(units) && ToMicro(rate.usd) == Priced(perToken)
    ensures |Fraction(amount)| <= rate.decimals <= MAX_FRACTION_DIGITS && |Fraction(rate.usd)| <= USD_SCALE
    ensures units == Scaled(amount, rate.decimals) && perToken == Scaled(rate.usd, USD_SCALE)
  {
    BaseUnitsExact(amount, rate.decimals);
    ToMicroIsPositive(rate.usd);
  }

  /** The price in closed form, with no wrap-around and no parsing left in it. */
  lemma PriceSteps(rates: Rates, amount: Amount, mint: Mint) returns (units: nat, perToken: nat)
    requires mint in rates && PriceOf(rates, amount, mint).Priced?
    ensures BaseUnits(amount, rates[mint].decimals) == Ok(units)
    ensures ToMicro(rates[mint].usd) == Priced(perToken)
    ensures PriceOf(rates, amount, mint).usd == Min(units * perToken / USD_SCALE_FACTOR, MAX_UINT64)
  {
    units, perToken := BaseUnits(amount, rates[mint].decimals).value, ToMicro(rates[mint].usd).usd;
    ScaleIsCappedQuotient(units, perToken);
  }

  /** A counted figure is the true value in units of 10^-d USD, rounded down. */
  ghost predicate CountsAtScale(usd: nat, d: nat, attoUsd: nat)
    requires d <= 18
  {
    usd * Pow10(18 - d) <= attoUsd < (usd + 1) * Pow10(18 - d)
  }

  /** An unsaturated price is the true USD value at the mint's own scale, rounded
      down: the divisor is always 10^6, so the scale is the mint's, not micro-USD. */
  lemma PriceIsValueAtMintScale(rates: Rates, amount: Amount, mint: Mint)
    requires mint in rates && Valid(amount) && Valid(rates[mint].usd)
    requires PriceOf(rates, amount, mint).Priced?
    ensures rates[mint].decimals <= MAX_FRACTION_DIGITS
    ensures PriceOf(rates, amount, mint).usd < MAX_UINT64 ==>
              CountsAtScale(PriceOf(rates, amount, mint).usd, rates[mint].decimals, TrueAtto(amount, rates[mint]))
    ensures PriceOf(rates, amount, mint).usd * Pow10(18 - rates[mint].decimals) <= TrueAtto(amount, rates[mint])
  {
    var d := rates[mint].decimals;
    var units, perToken := PriceSteps(rates, amount, mint);
    PriceFactors(amount, rates[mint], units, perToken);
    ScaledAtWiderScale(amount, d, MAX_FRACTION_DIGITS);
    ScaledAtWiderScale(rates[mint].usd, USD_SCALE, MAX_FRACTION_DIGITS);
    Pow10Sum(9 - d, 9);
    assert Pow10(3) == 1000 && Pow10(9) == 1_000_000_000;
    ProductBrackets(units, perToken, Pow10(9 - d));
    MulMonotone(PriceOf(rates, amount, mint).usd, units * perToken / USD_SCALE_FACTOR, Pow10(18 - d));
  }

  lemma ProductBrackets(units: nat, perToken: nat, p: nat)
    requires p > 0
    ensures var q := units * perToken / USD_SCALE_FACTOR;
            var v := (units * p) * (perToken * 1000);
            q * (p * 1_000_000_000) <= v < (q + 1) * (p * 1_000_000_000)
  {
    var product := units * perToken;
    var q := product / USD_SCALE_FACTOR;
    assert (units * p) * (perToken * 1000) == (product * 1000) * p by { Regroup(units, p, perToken); }
    assert q * 1_000_000_000 <= product * 1000 <= (q + 1) * 1_000_000_000 - 1;
    MulMonotone(q * 1_000_000_000, product * 1000, p);
    MulMonotone(product * 1000, (q + 1) * 1_000_000_000 - 1, p);
    MulDistributes((q + 1) * 1_000_000_000, 1, p);
    MulAssociates(q, p, 1_000_000_000);
    MulAssociates(q + 1, p, 1_000_000_000);
  }

  lemma Regroup(units: nat, p: nat, perToken: nat)
    ensures (units * p) * (perToken * 1000) == (units * perToken * 1000) * p
  {
  }

  const ONE := Amount("1")

  lemma OneIsValid()
    ensures Valid(ONE) && Fraction(ONE) == ""
    ensures forall d: nat :: Scaled(ONE, d) == Pow10(d)
  {
    assert PointAt("1") == 1;
    assert IntegerPart("1") == "1" && FractionPart("1") == "";
    assert "1" + "" == "1" && "1"[..0] == "";
    assert Num("1") == 1;
  }

  /** The counted figure is micro-USD for every unsaturated amount exactly when the
      mint has six decimals; at any other scale even one whole token is miscounted. */
  lemma MicroUsdIffSixDecimals(rates: Rates, mint: Mint)
    requires mint in rates && Valid(rates[mint].usd) && rates[mint].decimals <= MAX_FRACTION_DIGITS
    requires ToMicro(rates[mint].usd).Priced? && ToMicro(rates[mint].usd).usd <= MAX_UINT64 / 1000
    ensures rates[mint].decimals == 6 <==>
              forall a :: Valid(a) && PriceOf(rates, a, mint).Priced? && PriceOf(rates, a, mint).usd < MAX_UINT64
                ==> CountsAtScale(PriceOf(rates, a, mint).usd, 6, TrueAtto(a, rates[mint]))
  {
    if rates[mint].decimals == 6 {
      forall a | Valid(a) && PriceOf(rates, a, mint).Priced? && PriceOf(rates, a, mint).usd < MAX_UINT64
        ensures CountsAtScale(PriceOf(rates, a, mint).usd, 6, TrueAtto(a, rates[mint]))
      {
        PriceIsValueAtMintScale(rates, a, mint);
      }
    } else {
      OneIsValid();
      OneTokenIsMispriced(rates, mint);
    }
  }

  lemma OneTokenIsMispriced(rates: Rates, mint: Mint)
    requires mint in rates && Valid(rates[mint].usd) && rates[mint].decimals <= MAX_FRACTION_DIGITS
    requires rates[mint].decimals != 6 && Valid(ONE)
    requires ToMicro(rates[mint].usd).Priced? && ToMicro(rates[mint].usd).usd <= MAX_UINT64 / 1000
    ensures PriceOf(rates, ONE, mint).Priced? && PriceOf(rates, ONE, mint).usd < MAX_UINT64
    ensures !CountsAtScale(PriceOf(rates, ONE, mint).usd, 6, TrueAtto(ONE, rates[mint]))
  {
    var d := rates[mint].decimals;
    var perToken := ToMicro(rates[mint].usd).usd;
    ToMicroIsPositive(rates[mint].usd);
    OneTokenPrice(rates, mint);
    PowersUpToNine(d);
    WrongPower(Pow10(d), perToken);
    OneTokenValue(rates[mint]);
    PowerTwelve();
  }

  lemma OneTokenValue(rate: Rate)
    requires Valid(rate.usd) && Valid(ONE) && |Fraction(rate.usd)| <= USD_SCALE
    ensures TrueAtto(ONE, rate) == Scaled(rate.usd, USD_SCALE) * ATTO_PER_MICRO
  {
    hide Canonical, Scaled, Num;
    OneIsValid();
    ScaledAtWiderScale(rate.usd, USD_SCALE, MAX_FRACTION_DIGITS);
    assert Pow10(3) == 1000 && Pow10(9) == 1_000_000_000;
  }

  lemma PowerTwelve()
    ensures Pow10(12) == ATTO_PER_MICRO
  {
    assert Pow10(6) == 1_000_000;
    Pow10Sum(6, 6);
  }

  lemma OneTokenPrice(rates: Rates, mint: Mint)
    requires mint in rates && Valid(rates[mint].usd) && rates[mint].decimals <= MAX_FRACTION_DIGITS
    requires ToMicro(rates[mint].usd).Priced? && ToMicro(rates[mint].usd).usd > 0
    ensures var q := Pow10(rates[mint].decimals) * ToMicro(rates[mint].usd).usd / USD_SCALE_FACTOR;
            PriceOf(rates, ONE, mint) == Priced(Min(q, MAX_UINT64))
  {
    hide Canonical, Scaled, ToMicro;
    var d := rates[mint].decimals;
    OneIsValid();
    PowersUpToNine(d);
    BaseUnitsExact(ONE, d);
    ToMicroFits(rates[mint].usd);
    ScaleIsCappedQuotient(Pow10(d), ToMicro(rates[mint].usd).usd);
  }

  /** One token at any power of ten but the sixth is off by at least a micro-dollar. */
  lemma WrongPower(p: nat, perToken: nat)
    requires p <= 100_000 || 10_000_000 <= p <= 1_000_000_000
    requires 0 < perToken <= MAX_UINT64 / 1000
    ensures p * perToken / USD_SCALE_FACTOR < MAX_UINT64
    ensures p * perToken / USD_SCALE_FACTOR != perToken
  {
    if p <= 100_000 {
      MulMonotone(p, 100_000, perToken);
    } else {
      MulMonotone(10_000_000, p, perToken);
      MulMonotone(p, 1_000_000_000, perToken);
    }
  }

  lemma PowersUpToNine(d: nat)
    requires d <= 9
    ensures Pow10(d) <= 1_000_000_000
    ensures d < 6 ==> Pow10(d) <= 100_000
    ensures d > 6 ==> Pow10(d) >= 10_000_000
  {
    assert Pow10(3) == 1000;
    assert Pow10(5) == 100_000;
    assert Pow10(7) == 10_000_000;
    assert Pow10(9) == 1_000_000_000;
    if d <= 5 { Pow10Sum(d, 5 - d); MulMonotone(1, Pow10(5 - d), Pow10(d)); }
    if d >= 7 { Pow10Sum(7, d - 7); MulMonotone(1, Pow10(d - 7), Pow10(7)); }
    Pow10Sum(d, 9 - d);
    MulMonotone(1, Pow10(9 - d), Pow10(d));
  }

  // ---------------------------------------------------------------- rounding over many trades

  datatype Spend = Spend(amount: Amount, mint: Mint)

  /** A row priced in a six-decimal mint, below saturation. */
  ghost predicate SixDecimalRow(rates: Rates, s: Spend)
  {
    && s.mint in rates && rates[s.mint].decimals == 6
    && Valid(s.amount) && Valid(rates[s.mint].usd)
    && PriceOf(rates, s.amount, s.mint).Priced?
    && PriceOf(rates, s.amount, s.mint).usd < MAX_UINT64
  }

  ghost predicate SixDecimalRows(rates: Rates, rows: seq<Spend>)
  {
    forall s :: s in rows ==> SixDecimalRow(rates, s)
  }

  ghost function CountedTotal(rates: Rates, rows: seq<Spend>): nat
    requires SixDecimalRows(rates, rows)
  {
    if rows == [] then 0
    else assert rows[0] in rows; PriceOf(rates, rows[0].amount, rows[0].mint).usd + CountedTotal(rates, rows[1..])
  }

  ghost function TrueTotal(rates: Rates, rows: seq<Spend>): nat
    requires SixDecimalRows(rates, rows)
  {
    if rows == [] then 0
    else assert rows[0] in rows; TrueAtto(rows[0].amount, rates[rows[0].mint]) + TrueTotal(rates, rows[1..])
  }

  lemma OneRowLoss(rates: Rates, s: Spend)
    requires SixDecimalRow(rates, s)
    ensures var p := PriceOf(rates, s.amount, s.mint).usd;
            p * ATTO_PER_MICRO <= TrueAtto(s.amount, rates[s.mint]) < (p + 1) * ATTO_PER_MICRO
  {
    PriceIsValueAtMintScale(rates, s.amount, s.mint);
    PowerTwelve();
  }

  /** Truncation loses less than one micro-dollar a trade, and never the other way. */
  lemma {:induction false} RoundingLossIsBounded(rates: Rates, rows: seq<Spend>)
    requires SixDecimalRows(rates, rows)
    ensures CountedTotal(rates, rows) * ATTO_PER_MICRO <= TrueTotal(rates, rows)
    ensures rows != [] ==> TrueTotal(rates, rows) < (CountedTotal(rates, rows) + |rows|) * ATTO_PER_MICRO
  {
    if rows != [] {
      assert rows[0] in rows;
      RoundingLossIsBounded(rates, rows[1..]);
      OneRowLoss(rates, rows[0]);
    }
  }

  /** At par nothing is lost at all. */
  lemma {:induction false} ParLosesNothing(rates: Rates, rows: seq<Spend>)
    requires SixDecimalRows(rates, rows)
    requires forall s :: s in rows ==> s.mint in rates && ToMicro(rates[s.mint].usd) == Priced(1_000_000)
    ensures TrueTotal(rates, rows) == CountedTotal(rates, rows) * ATTO_PER_MICRO
  {
    if rows != [] {
      assert rows[0] in rows;
      ParLosesNothing(rates, rows[1..]);
      OneParRow(rates, rows[0]);
    }
  }

  lemma OneParRow(rates: Rates, s: Spend)
    requires SixDecimalRow(rates, s) && ToMicro(rates[s.mint].usd) == Priced(1_000_000)
    ensures TrueAtto(s.amount, rates[s.mint]) == PriceOf(rates, s.amount, s.mint).usd * ATTO_PER_MICRO
  {
    hide Canonical, Scaled, PriceOf, ToMicro;
    var units, perToken := PriceSteps(rates, s.amount, s.mint);
    PriceFactors(s.amount, rates[s.mint], units, perToken);
    ScaledAtWiderScale(s.amount, 6, MAX_FRACTION_DIGITS);
    ScaledAtWiderScale(rates[s.mint].usd, USD_SCALE, MAX_FRACTION_DIGITS);
    assert Pow10(3) == 1000;
  }
}
