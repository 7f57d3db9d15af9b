/** Ending a trade without payment gives its buyer back exactly what it was charged for. */
module Releases {
  import opened Options
  import opened Domain
  import opened Tables
  import opened Protocol
  import opened Safety
  import opened Interleaving
  import opened Runs
  import opened Sequential
  import opened RunningAlone
  import opened Spending
  import opened Exposure
  import opened Caps
  import opened Calls
  import opened Outcomes
  import opened SweepCalls
  import opened Verdicts
  import Disputes

  /** What one trade adds to its buyer's exposure now. */
  function ChargeOf(pol: Policy, db: Db, t: TradeId, now: Time): nat
    requires t in db.trades
  {
    Charge(pol, db, db.trades[t].buyer, now - pol.window, None, t)
  }

  /** Cancelling or resolving a trade frees its charge, and nobody else's. */
  lemma MoveReleases(pol: Policy, db: Db, t: TradeId, to: TradeState, agent: Actor, kind: EventType, now: Time, buyer: AgentId)
    requires t in db.trades && to in {Cancelled, Resolved}
    ensures var w := Moved(db, t, to, agent, kind, now);
            Exposed(pol, w, buyer, now) + (if buyer == db.trades[t].buyer then ChargeOf(pol, db, t, now) else 0)
            == Exposed(pol, db, buyer, now)
  {
    hide Exposed, ExposureBut, Charge, Charged, UsdOf;
    var from, e := db.trades[t].state, Event(t, agent, kind, Some(db.trades[t].state), to, now);
    var cas, w := CasState(db, t, from, to, now), Moved(db, t, to, agent, kind, now);
    assert w == AppendEvent(cas, e);
    Disputes.ExposureMovesOthers(pol, db, t, from, to, now, buyer, now);
    ExposureLogsOthers(pol, cas, e, buyer, now);
    ExposureSplits(pol, db, buyer, now, t);
    ExposureSplits(pol, w, buyer, now, t);
    ChargedInFull(pol, w, buyer, now - pol.window, t);
    ChargedInFull(pol, db, buyer, now - pol.window, t);
  }

  /** Withdrawing requests is nothing to anyone's exposure. */
  lemma WithdrawnReads(pol: Policy, db: Db, t: TradeId, buyer: AgentId, now: Time)
    ensures Exposed(pol, Withdrawn(db, t), buyer, now) == Exposed(pol, db, buyer, now)
  {
    hide ExposureBut;
    ExposureReads(pol, db, Withdrawn(db, t), buyer, now, None);
  }

  /** A resolve, a cancel or a lapsed settlement made alone, when it ends the trade: its
      buyer is left engaged for exactly the trade's charge less. */
  lemma EndedReleases(cfg: Config, pol: Policy, given: Outside, v: World, cmd: Command, w: World, out: Outcome)
    requires cmd.Resolve? || cmd.Cancel? || cmd.Reconcile?
    requires Calm(cfg, v) && CalledOn(cfg, Some(given), v, cmd, w, out) && cmd.id in v.db.trades && cmd.id in w.db.trades
    requires v.db.trades[cmd.id].state != w.db.trades[cmd.id].state && w.db.trades[cmd.id].state in {Cancelled, Resolved}
    ensures var buyer := v.db.trades[cmd.id].buyer;
            w.now == v.now && Exposed(pol, w.db, buyer, w.now) + ChargeOf(pol, v.db, cmd.id, v.now) == Exposed(pol, v.db, buyer, v.now)
  {
    hide Calm, Called, CalledOn, Exposed, ChargeOf, Signable, Lapsed;
    var t, buyer := cmd.id, v.db.trades[cmd.id].buyer;
    CalledIsLeads(cfg, Some(given), v, cmd, w, out);
    match cmd
    case Resolve(_) =>
      ResolveDecides(cfg, v, t, w, out);
      MoveReleases(pol, v.db, t, Resolved, None, EventResolved, v.now, buyer);
    case Cancel(actor, _) =>
      CancelDecides(cfg, v, actor, t, w, out);
      MoveReleases(pol, v.db, t, Cancelled, Some(actor), EventCancelled, v.now, buyer);
    case Reconcile(_) =>
      var r := ReconcileDecides(cfg, given, v, t, w, out);
      LapsedReleases(cfg, pol, given, v, t, r, w, out);
  }

  lemma LapsedReleases(cfg: Config, pol: Policy, given: Outside, v: World, t: TradeId, r: RequestId, w: World, out: Outcome)
    requires t in v.db.trades && t in w.db.trades && v.db.trades[t].state == SettlementPending
    requires w.db.trades[t].state in {Cancelled, Resolved} && r in v.db.requests && Reconciles(cfg, given, v, t, r, w, out)
    ensures var buyer := v.db.trades[t].buyer;
            w.now == v.now && Exposed(pol, w.db, buyer, w.now) + ChargeOf(pol, v.db, t, v.now) == Exposed(pol, v.db, buyer, v.now)
  {
    hide Exposed, Charge, FirstWord;
    var u, buyer := Withdrawn(v.db, t), v.db.trades[t].buyer;
    OnlyExpiryEnds(cfg, given, v, t, r, w, out);
    hide Reconciles;
    WithdrawnReads(pol, v.db, t, buyer, v.now);
    MoveReleases(pol, u, t, Cancelled, None, EventExpired, v.now, buyer);
    SameCharge(pol, v.db, u, t, v.now);
  }

  /** Of all a pass can do to a pending trade only its expiry cancels it. */
  lemma OnlyExpiryEnds(cfg: Config, given: Outside, v: World, t: TradeId, r: RequestId, w: World, out: Outcome)
    requires t in v.db.trades && t in w.db.trades && v.db.trades[t].state == SettlementPending
    requires w.db.trades[t].state in {Cancelled, Resolved} && r in v.db.requests && Reconciles(cfg, given, v, t, r, w, out)
    ensures Expires(v, t, w, out)
  {
  }

  lemma SameCharge(pol: Policy, v: Db, w: Db, t: TradeId, now: Time)
    requires t in v.trades && t in w.trades && v.trades[t].(state := w.trades[t].state, updatedAt := w.trades[t].updatedAt) == w.trades[t]
    requires v.trades[t].state == w.trades[t].state && FirstCommit(w.events, t) == FirstCommit(v.events, t)
    ensures ChargeOf(pol, w, t, now) == ChargeOf(pol, v, t, now)
  {
    hide UsdOf, FirstCommit;
  }

  // ---------------------------------------------------------------- sweeps

  /** What the due trades of a list are charged for, their buyer's own. */
  function Freed(pol: Policy, db: Db, batch: seq<TradeId>, due: TradeId -> bool, now: Time, buyer: AgentId): nat
    requires forall t :: t in batch ==> t in db.trades
  {
    if batch == [] then 0
    else
      (if due(batch[0]) && db.trades[batch[0]].buyer == buyer then ChargeOf(pol, db, batch[0], now) else 0)
      + Freed(pol, db, batch[1..], due, now, buyer)
  }

  /** A sweep frees exactly what the trades it cancels were charged for. */
  lemma {:induction false} ExpiryReleases(pol: Policy, db: Db, batch: seq<TradeId>, due: TradeId -> bool, now: Time, buyer: AgentId)
    requires (forall t :: t in batch ==> t in db.trades) && (forall i, j :: 0 <= i < j < |batch| ==> batch[i] != batch[j])
    ensures Exposed(pol, Expiry(db, batch, due, now), buyer, now) + Freed(pol, db, batch, due, now, buyer) == Exposed(pol, db, buyer, now)
    decreases |batch|
  {
    hide Exposed, ChargeOf;
    if batch != [] {
      var t, rest := batch[0], batch[1..];
      var next := if due(t) then Moved(db, t, Cancelled, None, EventExpired, now) else db;
      assert batch == [t] + rest;
      assert forall u :: u in rest ==> u in next.trades && u != t;
      if due(t) { MoveReleases(pol, db, t, Cancelled, None, EventExpired, now, buyer); }
      ExpiryReleases(pol, next, rest, due, now, buyer);
      FreedKeeps(pol, db, next, rest, t, due, now, buyer);
    }
  }

  lemma {:induction false} FreedKeeps(pol: Policy, v: Db, w: Db, batch: seq<TradeId>, t: TradeId, due: TradeId -> bool, now: Time, buyer: AgentId)
    requires t in v.trades && (w == v || w == Moved(v, t, Cancelled, None, EventExpired, now))
    requires forall u :: u in batch ==> u in v.trades && u != t
    ensures Freed(pol, w, batch, due, now, buyer) == Freed(pol, v, batch, due, now, buyer)
    decreases |batch|
  {
    hide ChargeOf;
    if batch != [] {
      assert batch == [batch[0]] + batch[1..];
      FreedKeeps(pol, v, w, batch[1..], t, due, now, buyer);
      OtherCharge(pol, v, w, t, batch[0], now);
    }
  }

  lemma OtherCharge(pol: Policy, v: Db, w: Db, t: TradeId, u: TradeId, now: Time)
    requires t in v.trades && u in v.trades && u != t && (w == v || w == Moved(v, t, Cancelled, None, EventExpired, now))
    ensures ChargeOf(pol, w, u, now) == ChargeOf(pol, v, u, now)
  {
    if w != v {
      FirstCommitAppends(v.events, Event(t, None, EventExpired, Some(v.trades[t].state), Cancelled, now), u);
      SameCharge(pol, v, w, u, now);
    }
  }
}
