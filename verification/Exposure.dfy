/** A buyer's exposure as a fold over stored trades and their events. */
module Exposure {
  import opened Pricing
  import opened Options
  import opened Domain
  import opened Tables
  import opened Spending

  /** States, and moves into them, that make an engagement irreversible. */
  predicate Committed(s: TradeState) { s in {SettlementPending, Recorded, Settled, Disputed} }

  /** States that end an engagement without money having moved. */
  predicate Released(s: TradeState) { s in {Cancelled, Resolved} }

  function Earlier(a: Option<Time>, b: Time): Option<Time>
  {
    if a.Some? && a.value <= b then a else Some(b)
  }

  /** When a trade's log first shows it entering a committed state. */
  function FirstCommit(events: seq<Event>, t: TradeId): Option<Time>
  {
    if events == [] then None
    else
      var e, before := events[|events| - 1], events[..|events| - 1];
      if e.trade == t && Committed(e.to) then Earlier(FirstCommit(before, t), e.at) else FirstCommit(before, t)
  }

  lemma FirstCommitAppends(events: seq<Event>, e: Event, t: TradeId)
    ensures FirstCommit(events + [e], t)
            == if e.trade == t && Committed(e.to) then Earlier(FirstCommit(events, t), e.at) else FirstCommit(events, t)
  {
    assert (events + [e])[..|events|] == events;
  }

  /** The first commitment is the least commit time in the log. */
  lemma {:induction false} FirstCommitIsLeast(events: seq<Event>, t: TradeId)
    ensures FirstCommit(events, t).None? <==> forall e :: e in events && e.trade == t ==> !Committed(e.to)
    ensures FirstCommit(events, t).Some? ==>
              && (exists e :: e in events && e.trade == t && Committed(e.to) && e.at == FirstCommit(events, t).value)
              && (forall e :: e in events && e.trade == t && Committed(e.to) ==> FirstCommit(events, t).value <= e.at)
  {
    hide Committed;
    if events != [] {
      var last, before := events[|events| - 1], events[..|events| - 1];
      FirstCommitIsLeast(before, t);
      assert events == before + [last];
    }
  }

  function EngagedAt(db: Db, t: TradeId): Time
    requires t in db.trades
  {
    var commit := FirstCommit(db.events, t);
    var at := if commit.Some? then commit.value else 0;
    if db.trades[t].createdAt >= at then db.trades[t].createdAt else at
  }

  /** The rows the committed-spend query selects. */
  predicate Held(db: Db, buyer: AgentId, since: Time, exclude: Option<TradeId>, t: TradeId)
  {
    && t in db.trades && db.trades[t].buyer == buyer && exclude != Some(t)
    && EngagedAt(db, t) >= since && !Released(db.trades[t].state)
  }

  function SpendOf(tr: Trade): Spend { Spend(tr.amount, tr.mint) }

  predicate Distinct(ids: seq<TradeId>) { forall i, j :: 0 <= i < j < |ids| ==> ids[i] != ids[j] }

  /** The query's answer, in whatever order the rows come. */
  predicate RowsOf(db: Db, ids: seq<TradeId>, rows: seq<Spend>)
  {
    && |rows| == |ids|
    && forall i :: 0 <= i < |ids| ==> ids[i] in db.trades && rows[i] == SpendOf(db.trades[ids[i]])
  }

  /** These trades, each once, and their rows. */
  ghost predicate Selects(db: Db, buyer: AgentId, since: Time, exclude: Option<TradeId>, ids: seq<TradeId>, rows: seq<Spend>)
  {
    && Distinct(ids) && RowsOf(db, ids, rows)
    && (forall t :: t in ids <==> Held(db, buyer, since, exclude, t))
  }

  ghost predicate IsCommittedSpend(db: Db, buyer: AgentId, since: Time, exclude: Option<TradeId>, rows: seq<Spend>)
  {
    exists ids :: Selects(db, buyer, since, exclude, ids, rows)
  }

  method FirstCommitOf(events: seq<Event>, t: TradeId) returns (first: Option<Time>)
    ensures first == FirstCommit(events, t)
  {
    first := None;
    for i := 0 to |events|
      invariant first == FirstCommit(events[..i], t)
    {
      assert events[..i + 1] == events[..i] + [events[i]];
      FirstCommitAppends(events[..i], events[i], t);
      if events[i].trade == t && Committed(events[i].to) {
        first := Earlier(first, events[i].at);
      }
    }
    assert events[..|events|] == events;
  }

  method CommittedSpendSince(store: Store, buyer: AgentId, since: Time, exclude: Option<TradeId>)
    returns (rows: seq<Spend>)
    ensures IsCommittedSpend(store.Snapshot(), buyer, since, exclude, rows)
  {
    hide FirstCommit, Committed, Released;
    ghost var db := store.Snapshot();
    ghost var ids: seq<TradeId> := [];
    rows := [];
    var todo := store.trades.Keys;
    while todo != {}
      invariant todo <= store.trades.Keys
      invariant Distinct(ids) && RowsOf(db, ids, rows)
      invariant forall t :: t in ids <==> t !in todo && Held(db, buyer, since, exclude, t)
      decreases todo
    {
      var t :| t in todo;
      var tr := store.trades[t];
      var commit := FirstCommitOf(store.events, t);
      var at := if commit.Some? then commit.value else 0;
      var engaged := if tr.createdAt >= at then tr.createdAt else at;
      assert engaged == EngagedAt(db, t);
      if tr.buyer == buyer && exclude != Some(t) && engaged >= since && !Released(tr.state) {
        ids := ids + [t];
        rows := rows + [SpendOf(tr)];
      }
      todo := todo - {t};
    }
    assert Selects(db, buyer, since, exclude, ids, rows);
  }

  // ---------------------------------------------------------------- totals

  ghost function Total(ids: set<TradeId>, w: TradeId -> nat): nat
  {
    if ids == {} then 0 else var t :| t in ids; w(t) + Total(ids - {t}, w)
  }

  lemma {:induction false} TotalSplit(ids: set<TradeId>, w: TradeId -> nat, t: TradeId)
    requires t in ids
    ensures Total(ids, w) == w(t) + Total(ids - {t}, w)
    decreases ids
  {
    var u :| u in ids && Total(ids, w) == w(u) + Total(ids - {u}, w);
    if u != t {
      TotalSplit(ids - {u}, w, t);
      TotalSplit(ids - {t}, w, u);
      assert ids - {u} - {t} == ids - {t} - {u};
    }
  }

  lemma {:induction false} TotalMonotone(ids: set<TradeId>, v: TradeId -> nat, w: TradeId -> nat)
    requires forall t :: t in ids ==> v(t) <= w(t)
    ensures Total(ids, v) <= Total(ids, w)
  {
    if ids != {} {
      var t :| t in ids;
      TotalMonotone(ids - {t}, v, w);
      TotalSplit(ids, v, t);
      TotalSplit(ids, w, t);
    }
  }

  /** What one trade adds to its buyer's exposure. */
  function Charge(pol: Policy, db: Db, buyer: AgentId, since: Time, exclude: Option<TradeId>, t: TradeId): nat
  {
    if Held(db, buyer, since, exclude, t) then UsdOf(pol.rates, SpendOf(db.trades[t])) else 0
  }

  ghost function Charges(pol: Policy, db: Db, buyer: AgentId, since: Time, exclude: Option<TradeId>): TradeId -> nat
  {
    (t: TradeId) => Charge(pol, db, buyer, since, exclude, t)
  }

  /** What a buyer is engaged for inside the window, one trade possibly left out. */
  ghost function ExposureBut(pol: Policy, db: Db, buyer: AgentId, now: Time, exclude: Option<TradeId>): nat
  {
    Total(db.trades.Keys, Charges(pol, db, buyer, now - pol.window, exclude))
  }

  ghost function Exposed(pol: Policy, db: Db, buyer: AgentId, now: Time): nat
  {
    ExposureBut(pol, db, buyer, now, None)
  }

  /** The admission test on the tables themselves. */
  ghost predicate Admits(pol: Policy, db: Db, tr: Trade, exclude: Option<TradeId>, now: Time)
  {
    var caps, usd := Effective(pol, tr.buyer), PriceOf(pol.rates, tr.amount, tr.mint);
    && usd.Priced? && ToMicro(caps.perTrade).Priced? && usd.usd <= ToMicro(caps.perTrade).usd
    && (forall t :: Held(db, tr.buyer, now - pol.window, exclude, t) ==>
          PriceOf(pol.rates, db.trades[t].amount, db.trades[t].mint).Priced?)
    && usd.usd + ExposureBut(pol, db, tr.buyer, now, exclude) <= DayCap(pol, tr.buyer)
  }

  /** Rows that are exactly the held trades sum to the exposure, in any order. */
  lemma {:induction false} RowsSum(rates: Rates, db: Db, ids: seq<TradeId>, rows: seq<Spend>, keys: set<TradeId>, w: TradeId -> nat)
    requires Distinct(ids) && RowsOf(db, ids, rows)
    requires forall i :: 0 <= i < |ids| ==> ids[i] in keys && w(ids[i]) == UsdOf(rates, rows[i])
    requires forall t :: t in keys && t !in ids ==> w(t) == 0
    ensures RowTotal(rates, rows) == Total(keys, w)
    decreases |ids|
  {
    hide UsdOf;
    if ids == [] {
      ZeroTotal(keys, w);
    } else {
      var n := |ids| - 1;
      assert ids == ids[..n] + [ids[n]];
      RowsSum(rates, db, ids[..n], rows[..n], keys - {ids[n]}, w);
      TotalSplit(keys, w, ids[n]);
    }
  }

  lemma {:induction false} ZeroTotal(ids: set<TradeId>, w: TradeId -> nat)
    requires forall t :: t in ids ==> w(t) == 0
    ensures Total(ids, w) == 0
  {
    if ids != {} {
      var t :| t in ids;
      ZeroTotal(ids - {t}, w);
      TotalSplit(ids, w, t);
    }
  }

  lemma RowsSumToExposure(pol: Policy, db: Db, buyer: AgentId, now: Time, exclude: Option<TradeId>, ids: seq<TradeId>, rows: seq<Spend>)
    requires Selects(db, buyer, now - pol.window, exclude, ids, rows)
    ensures RowTotal(pol.rates, rows) == ExposureBut(pol, db, buyer, now, exclude)
  {
    hide UsdOf, EngagedAt, Released;
    RowsSum(pol.rates, db, ids, rows, db.trades.Keys, Charges(pol, db, buyer, now - pol.window, exclude));
  }

  lemma RowsPricedIffHeldPriced(rates: Rates, db: Db, buyer: AgentId, since: Time, exclude: Option<TradeId>, ids: seq<TradeId>, rows: seq<Spend>)
    requires Selects(db, buyer, since, exclude, ids, rows)
    ensures RowsPriced(rates, rows) <==>
              forall t :: Held(db, buyer, since, exclude, t) ==>
                PriceOf(rates, db.trades[t].amount, db.trades[t].mint).Priced?
  {
    hide PriceOf, EngagedAt, Released;
    if RowsPriced(rates, rows) {
      forall t | Held(db, buyer, since, exclude, t)
        ensures PriceOf(rates, db.trades[t].amount, db.trades[t].mint).Priced?
      {
        var i :| 0 <= i < |ids| && ids[i] == t;
      }
    } else {
      var i :| 0 <= i < |rows| && PriceOf(rates, rows[i].amount, rows[i].mint).Unpriced?;
      assert Held(db, buyer, since, exclude, ids[i]);
    }
  }

  /** The loop over query rows decides admission on the tables, whatever the row order. */
  lemma CheckDecidesAdmission(pol: Policy, db: Db, tr: Trade, exclude: Option<TradeId>, now: Time, rows: seq<Spend>)
    requires IsCommittedSpend(db, tr.buyer, now - pol.window, exclude, rows)
    ensures Within(pol, tr.buyer, SpendOf(tr), rows) <==> Admits(pol, db, tr, exclude, now)
  {
    hide Effective, ToMicro, PriceOf, Held, Selects, ExposureBut, RowTotal, RowsPriced;
    var ids :| Selects(db, tr.buyer, now - pol.window, exclude, ids, rows);
    RowsSumToExposure(pol, db, tr.buyer, now, exclude, ids, rows);
    RowsPricedIffHeldPriced(pol.rates, db, tr.buyer, now - pol.window, exclude, ids, rows);
  }

  // ---------------------------------------------------------------- what is charged, in plain words

  /** The log shows the trade committed to pending, recorded, settled or disputed. */
  predicate Commits(e: Event, t: TradeId)
  {
    e.trade == t && e.to in {SettlementPending, Recorded, Settled, Disputed}
  }

  /** Charged while it is neither cancelled nor resolved, and the later of its creation and
      its first commitment, where it has one, is inside the window. */
  ghost predicate Charged(db: Db, t: TradeId, since: Time)
    requires t in db.trades
  {
    && db.trades[t].state !in {Cancelled, Resolved}
    && (db.trades[t].createdAt >= since
        || (if exists e :: e in db.events && Commits(e, t) then forall e :: e in db.events && Commits(e, t) ==> e.at >= since
            else since <= 0))
  }

  /** The query selects exactly the buyer's charged trades, one of them left out. */
  lemma HeldIsCharged(db: Db, buyer: AgentId, since: Time, exclude: Option<TradeId>, t: TradeId)
    ensures Held(db, buyer, since, exclude, t) <==>
              t in db.trades && db.trades[t].buyer == buyer && exclude != Some(t) && Charged(db, t, since)
  {
    FirstCommitIsLeast(db.events, t);
    hide FirstCommit;
  }

  /** A charged trade counts in full, any other for nothing. */
  lemma ChargedInFull(pol: Policy, db: Db, buyer: AgentId, since: Time, t: TradeId)
    requires t in db.trades
    ensures Charge(pol, db, buyer, since, None, t)
            == if db.trades[t].buyer == buyer && Charged(db, t, since) then UsdOf(pol.rates, SpendOf(db.trades[t])) else 0
    ensures db.trades[t].state in {Cancelled, Resolved} ==> Charge(pol, db, buyer, since, None, t) == 0
  {
    HeldIsCharged(db, buyer, since, None, t);
    hide UsdOf, Held;
  }
}
