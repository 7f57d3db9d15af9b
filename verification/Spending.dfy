/** Spending caps: what a buyer is charged for, and the check that refuses a trade. */
module Spending {
  import opened Money
  import opened Pricing
  import opened Options
  import opened Domain
  import opened Tables

  // ---------------------------------------------------------------- policy

  datatype Policy = Policy(
    perTrade: Amount,
    perDay: Amount,
    window: int,
    rates: Rates,
    overrides: map<AgentId, (Amount, Amount)>)

  datatype Limits = Limits(perTrade: Amount, perDay: Amount, raised: bool)

  /** A stored raise counts only where it is above the default. */
  function Effective(pol: Policy, agent: AgentId): Limits
  {
    if agent !in pol.overrides then Limits(pol.perTrade, pol.perDay, false)
    else
      var (perTrade, perDay) := pol.overrides[agent];
      var t, d := !IsZero(perTrade) && Cmp(perTrade, pol.perTrade) > 0, !IsZero(perDay) && Cmp(perDay, pol.perDay) > 0;
      Limits(if t then perTrade else pol.perTrade, if d then perDay else pol.perDay, t || d)
  }

  /** A policy and whatever raise is stored for the agent, as amounts at one scale. */
  ghost predicate AtScale(pol: Policy, agent: AgentId, scale: nat)
  {
    && Valid(pol.perTrade) && Valid(pol.perDay) && scale >= |Fraction(pol.perTrade)| && scale >= |Fraction(pol.perDay)|
    && (agent in pol.overrides ==>
          && Valid(pol.overrides[agent].0) && Valid(pol.overrides[agent].1)
          && scale >= |Fraction(pol.overrides[agent].0)| && scale >= |Fraction(pol.overrides[agent].1)|)
  }

  /** An agent's per-trade cap: the default, or the raise stored for it when that is larger. */
  ghost function TradeCap(pol: Policy, agent: AgentId, scale: nat): nat
    requires AtScale(pol, agent, scale)
  {
    var default := Scaled(pol.perTrade, scale);
    if agent in pol.overrides && Scaled(pol.overrides[agent].0, scale) > default then Scaled(pol.overrides[agent].0, scale) else default
  }

  ghost function DailyCap(pol: Policy, agent: AgentId, scale: nat): nat
    requires AtScale(pol, agent, scale)
  {
    var default := Scaled(pol.perDay, scale);
    if agent in pol.overrides && Scaled(pol.overrides[agent].1, scale) > default then Scaled(pol.overrides[agent].1, scale) else default
  }

  /** For every agent each effective cap is numerically its own default or the stored raise
      of it, whichever is larger; with no raise both are the defaults as they stand. */
  lemma EffectiveIsLarger(pol: Policy, agent: AgentId, scale: nat)
    requires AtScale(pol, agent, scale)
    ensures var caps := Effective(pol, agent);
            && Valid(caps.perTrade) && |Fraction(caps.perTrade)| <= scale && Scaled(caps.perTrade, scale) == TradeCap(pol, agent, scale)
            && Valid(caps.perDay) && |Fraction(caps.perDay)| <= scale && Scaled(caps.perDay, scale) == DailyCap(pol, agent, scale)
    ensures Effective(pol, agent).raised <==>
              TradeCap(pol, agent, scale) > Scaled(pol.perTrade, scale) || DailyCap(pol, agent, scale) > Scaled(pol.perDay, scale)
    ensures agent !in pol.overrides ==>
              Effective(pol, agent).perTrade == pol.perTrade && Effective(pol, agent).perDay == pol.perDay
  {
    hide Valid, Fraction, Scaled, Cmp, IsZero;
    if agent in pol.overrides {
      var (perTrade, perDay) := pol.overrides[agent];
      RaiseIsNumeric(perTrade, pol.perTrade, scale);
      RaiseIsNumeric(perDay, pol.perDay, scale);
    }
  }

  /** A cap converts when it is positive and fits 64 bits of micro-dollars. */
  predicate Converts(micro: nat) { 0 < micro <= MAX_UINT64 }

  lemma ToMicroIsExact(a: Amount)
    requires Valid(a) && |Fraction(a)| <= USD_SCALE
    ensures ToMicro(a).Priced? <==> Converts(Scaled(a, USD_SCALE))
    ensures ToMicro(a).Priced? ==> ToMicro(a).usd == Scaled(a, USD_SCALE)
  {
    BaseUnitsExact(a, USD_SCALE);
    IsZeroIsNumeric(a);
    ScaledAtWiderScale(a, |Fraction(a)|, USD_SCALE);
    if Scaled(a, |Fraction(a)|) > 0 { MulMonotone(1, Scaled(a, |Fraction(a)|), Pow10(USD_SCALE - |Fraction(a)|)); }
    if ToMicro(a).Priced? { ToMicroIsPositive(a); }
  }

  /** A trade is admitted exactly when both of its buyer's caps convert, everything can be
      priced, its value is within the per-trade cap, and with what is committed within the
      daily one, in micro-dollars of unbounded integers. */
  lemma AdmissionIsNumeric(pol: Policy, buyer: AgentId, s: Spend, rows: seq<Spend>)
    requires AtScale(pol, buyer, USD_SCALE)
    ensures var perTrade, perDay := TradeCap(pol, buyer, USD_SCALE), DailyCap(pol, buyer, USD_SCALE);
            Within(pol, buyer, s, rows) <==>
              && Converts(perTrade) && Converts(perDay)
              && PriceOf(pol.rates, s.amount, s.mint).Priced? && RowsPriced(pol.rates, rows)
              && PriceOf(pol.rates, s.amount, s.mint).usd <= perTrade
              && PriceOf(pol.rates, s.amount, s.mint).usd + RowTotal(pol.rates, rows) <= perDay
  {
    EffectiveIsLarger(pol, buyer, USD_SCALE);
    var caps := Effective(pol, buyer);
    ToMicroIsExact(caps.perTrade);
    ToMicroIsExact(caps.perDay);
    hide Effective, ToMicro, PriceOf, Scaled, Valid, Fraction, RowsPriced, RowTotal, TradeCap, DailyCap;
  }

  lemma RaiseIsNumeric(raise: Amount, default: Amount, scale: nat)
    requires Valid(raise) && Valid(default) && scale >= |Fraction(raise)| && scale >= |Fraction(default)|
    ensures !IsZero(raise) && Cmp(raise, default) > 0 <==> Scaled(raise, scale) > Scaled(default, scale)
  {
    CmpIsNumeric(raise, default, scale);
    IsZeroIsNumeric(raise);
    hide Valid, Cmp, IsZero;
    var f := |Fraction(raise)|;
    ScaledAtWiderScale(raise, f, scale);
    if Scaled(raise, f) == 0 { assert Scaled(raise, scale) == 0; }
  }

  // ---------------------------------------------------------------- the check itself

  predicate RowsPriced(rates: Rates, rows: seq<Spend>)
  {
    forall i :: 0 <= i < |rows| ==> PriceOf(rates, rows[i].amount, rows[i].mint).Priced?
  }

  /** A row's value, an unpriced one counting nothing. */
  function UsdOf(rates: Rates, s: Spend): nat
  {
    var p := PriceOf(rates, s.amount, s.mint);
    if p.Priced? then p.usd else 0
  }

  /** Unbounded total of a buyer's committed rows. */
  function RowTotal(rates: Rates, rows: seq<Spend>): nat
  {
    if rows == [] then 0 else RowTotal(rates, rows[..|rows| - 1]) + UsdOf(rates, rows[|rows| - 1])
  }

  /** Every amount is priceable, the trade is within the per-trade cap, and the trade with
      everything committed is within the daily cap. */
  predicate Within(pol: Policy, buyer: AgentId, s: Spend, rows: seq<Spend>)
  {
    var caps := Effective(pol, buyer);
    && PriceOf(pol.rates, s.amount, s.mint).Priced?
    && ToMicro(caps.perTrade).Priced? && ToMicro(caps.perDay).Priced?
    && UsdOf(pol.rates, s) <= ToMicro(caps.perTrade).usd
    && RowsPriced(pol.rates, rows)
    && UsdOf(pol.rates, s) + RowTotal(pol.rates, rows) <= ToMicro(caps.perDay).usd
  }

  datatype Verdict = Admitted | Unpriceable | CapBroken | OverTrade | OverDay

  /** On wrapping 64-bit sums: a carry shows as a sum below its last addend. */
  method CheckSpend(pol: Policy, buyer: AgentId, s: Spend, rows: seq<Spend>) returns (v: Verdict)
    ensures v.Admitted? <==> Within(pol, buyer, s, rows)
    ensures v.Unpriceable? ==> !RowsPriced(pol.rates, [s] + rows)
    ensures v.OverDay? ==> exists k :: 0 <= k <= |rows| && ToMicro(Effective(pol, buyer).perTrade).Priced?
                                       && UsdOf(pol.rates, s) + RowTotal(pol.rates, rows[..k]) > DayCap(pol, buyer)
    ensures v.OverTrade? ==> ToMicro(Effective(pol, buyer).perTrade).Priced?
                             && UsdOf(pol.rates, s) > ToMicro(Effective(pol, buyer).perTrade).usd
    ensures v.CapBroken? ==> ToMicro(Effective(pol, buyer).perTrade).Unpriced? || ToMicro(Effective(pol, buyer).perDay).Unpriced?
  {
    hide Effective, ToMicro, PriceOf;
    var caps := Effective(pol, buyer);
    var prices := new PriceCache(pol.rates);
    var value := prices.UsdValue(s.amount, s.mint);
    if value.Unpriced? {
      assert ([s] + rows)[0] == s;
      return Unpriceable;
    }
    var perTrade := ToMicro(caps.perTrade);
    if perTrade.Unpriced? {
      return CapBroken;
    }
    if value.usd > perTrade.usd {
      return OverTrade;
    }
    var committed := value.usd;
    for i := 0 to |rows|
      invariant prices.Valid() && prices.rates == pol.rates
      invariant RowsPriced(pol.rates, rows[..i])
      invariant committed == UsdOf(pol.rates, s) + RowTotal(pol.rates, rows[..i]) <= MAX_UINT64
    {
      var row := prices.UsdValue(rows[i].amount, rows[i].mint);
      if row.Unpriced? {
        assert ([s] + rows)[i + 1] == rows[i];
        return Unpriceable;
      }
      RowJoins(pol.rates, rows, i);
      var sum := (committed + row.usd) % WORD;
      CarryShows(committed, row.usd);
      if sum < row.usd {
        DayCapFits(pol, buyer);
        TotalGrows(pol.rates, rows, i + 1);
        return OverDay;
      }
      committed := sum;
    }
    assert rows[..|rows|] == rows;
    var perDay := ToMicro(caps.perDay);
    if perDay.Unpriced? {
      return CapBroken;
    }
    if committed > perDay.usd {
      return OverDay;
    }
    v := Admitted;
  }

  lemma RowJoins(rates: Rates, rows: seq<Spend>, i: nat)
    requires i < |rows|
    ensures RowTotal(rates, rows[..i + 1]) == RowTotal(rates, rows[..i]) + UsdOf(rates, rows[i])
  {
    assert rows[..i + 1][..i] == rows[..i] && rows[..i + 1][i] == rows[i];
  }

  /** The daily cap in micro-dollars; one that does not convert admits nothing. */
  function DayCap(pol: Policy, buyer: AgentId): int
  {
    var p := ToMicro(Effective(pol, buyer).perDay);
    if p.Priced? then p.usd else -1
  }

  lemma DayCapFits(pol: Policy, buyer: AgentId)
    ensures DayCap(pol, buyer) <= MAX_UINT64
  {
    ToMicroFits(Effective(pol, buyer).perDay);
    hide Effective, ToMicro;
  }

  /** So the daily cap is the larger of default and stored raise, in micro-dollars. */
  lemma DayCapIsNumeric(pol: Policy, buyer: AgentId)
    requires AtScale(pol, buyer, USD_SCALE)
    ensures var perDay := DailyCap(pol, buyer, USD_SCALE); DayCap(pol, buyer) == if Converts(perDay) then perDay else -1
  {
    EffectiveIsLarger(pol, buyer, USD_SCALE);
    ToMicroIsExact(Effective(pol, buyer).perDay);
    hide Effective, ToMicro, Scaled, Valid, Fraction, DailyCap, TradeCap;
  }

  lemma CarryShows(a: nat, b: nat)
    requires a <= MAX_UINT64 && b <= MAX_UINT64
    ensures (a + b) % WORD < b <==> a + b > MAX_UINT64
    ensures a + b <= MAX_UINT64 ==> (a + b) % WORD == a + b
  {
    if a + b > MAX_UINT64 { assert (a + b) % WORD == a + b - WORD; }
  }

  lemma {:induction false} TotalGrows(rates: Rates, rows: seq<Spend>, k: nat)
    requires k <= |rows|
    ensures RowTotal(rates, rows[..k]) <= RowTotal(rates, rows)
    decreases |rows|
  {
    hide UsdOf;
    if k < |rows| {
      TotalGrows(rates, rows[..|rows| - 1], k);
      assert rows[..|rows| - 1][..k] == rows[..k];
    } else {
      assert rows[..k] == rows;
    }
  }
}
