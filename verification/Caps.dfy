/** The spending cap over runs. Exposure is a function of stored trades and events; the
    checks in front of create, record and build keep it within the buyer's daily cap. */
module Caps {
  import opened Pricing
  import opened Options
  import opened Domain
  import opened Tables
  import opened Protocol
  import opened Safety
  import opened Interleaving
  import opened Runs
  import opened EventLog
  import opened MethodGrain
  import opened Sequential
  import opened Spending
  import opened Exposure

  /** The protocol's admission test is the cap check under this policy. */
  ghost predicate Enforces(cfg: Config, pol: Policy)
  {
    && cfg.capped
    && forall db, tr, exclude, now :: cfg.admits(db, tr, exclude, now) <==> Admits(pol, db, tr, exclude, now)
  }

  ghost function Usd(pol: Policy, tr: Trade): nat { UsdOf(pol.rates, SpendOf(tr)) }

  // ---------------------------------------------------------------- how exposure responds to writes

  /** Every charge no larger. */
  lemma PointwiseLess(pol: Policy, v: Db, w: Db, buyer: AgentId, now: Time, to: Time, exclude: Option<TradeId>)
    requires v.trades.Keys == w.trades.Keys
    requires forall t :: t in v.trades ==>
               Charge(pol, w, buyer, to - pol.window, exclude, t) <= Charge(pol, v, buyer, now - pol.window, exclude, t)
    ensures ExposureBut(pol, w, buyer, to, exclude) <= ExposureBut(pol, v, buyer, now, exclude)
  {
    hide Charge;
    TotalMonotone(v.trades.Keys, Charges(pol, w, buyer, to - pol.window, exclude), Charges(pol, v, buyer, now - pol.window, exclude));
  }

  /** Exposure reads nothing but trades and events. */
  lemma ExposureReads(pol: Policy, v: Db, w: Db, buyer: AgentId, now: Time, exclude: Option<TradeId>)
    requires v.trades == w.trades && v.events == w.events
    ensures ExposureBut(pol, w, buyer, now, exclude) == ExposureBut(pol, v, buyer, now, exclude)
  {
    hide UsdOf, FirstCommit, Released, ExposureBut;
    PointwiseLess(pol, v, w, buyer, now, now, exclude);
    PointwiseLess(pol, w, v, buyer, now, now, exclude);
  }

  /** The window only moves forward. */
  lemma ExposureAges(pol: Policy, db: Db, buyer: AgentId, now: Time, to: Time, exclude: Option<TradeId>)
    requires now <= to
    ensures ExposureBut(pol, db, buyer, to, exclude) <= ExposureBut(pol, db, buyer, now, exclude)
  {
    hide UsdOf, EngagedAt, Released, ExposureBut;
    PointwiseLess(pol, db, db, buyer, now, to, exclude);
  }

  lemma ChargeBut(pol: Policy, db: Db, buyer: AgentId, since: Time, t: TradeId, u: TradeId)
    ensures Charge(pol, db, buyer, since, Some(t), u) == if u == t then 0 else Charge(pol, db, buyer, since, None, u)
  {
    hide UsdOf, EngagedAt, Released;
  }

  /** A trade's charge is the difference it makes. */
  lemma ExposureSplits(pol: Policy, db: Db, buyer: AgentId, now: Time, t: TradeId)
    requires t in db.trades
    ensures Exposed(pol, db, buyer, now)
            == ExposureBut(pol, db, buyer, now, Some(t)) + Charge(pol, db, buyer, now - pol.window, None, t)
  {
    hide Charge;
    var keys, since := db.trades.Keys, now - pol.window;
    forall u ensures Charge(pol, db, buyer, since, Some(t), u) == if u == t then 0 else Charge(pol, db, buyer, since, None, u) {
      ChargeBut(pol, db, buyer, since, t, u);
    }
    var all, but := Charges(pol, db, buyer, since, None), Charges(pol, db, buyer, since, Some(t));
    TotalSplit(keys, all, t);
    TotalSplit(keys, but, t);
    TotalMonotone(keys - {t}, all, but);
    TotalMonotone(keys - {t}, but, all);
  }

  lemma ChargeIsBounded(pol: Policy, db: Db, buyer: AgentId, since: Time, t: TradeId)
    requires t in db.trades
    ensures Charge(pol, db, buyer, since, None, t) <= Usd(pol, db.trades[t])
    ensures db.trades[t].buyer != buyer ==> Charge(pol, db, buyer, since, None, t) == 0
  {
    hide UsdOf, EngagedAt;
  }

  lemma ChargeSame(pol: Policy, v: Db, w: Db, buyer: AgentId, since: Time, u: TradeId)
    requires u in v.trades && u in w.trades && v.trades[u] == w.trades[u] && v.events == w.events
    ensures Charge(pol, v, buyer, since, None, u) == Charge(pol, w, buyer, since, None, u)
  {
    hide UsdOf, FirstCommit, Released;
  }

  lemma ExposureInserts(pol: Policy, db: Db, tr: Trade, buyer: AgentId, now: Time)
    requires CanInsert(db, tr)
    ensures Exposed(pol, InsertTrade(db, tr), buyer, now)
            <= Exposed(pol, db, buyer, now) + (if tr.buyer == buyer then Usd(pol, tr) else 0)
  {
    hide Charge, Usd;
    var w, since := InsertTrade(db, tr), now - pol.window;
    forall u | u in db.trades ensures Charge(pol, w, buyer, since, None, u) == Charge(pol, db, buyer, since, None, u) {
      ChargeSame(pol, db, w, buyer, since, u);
    }
    ChargeIsBounded(pol, w, buyer, since, tr.id);
    var before, after := Charges(pol, db, buyer, since, None), Charges(pol, w, buyer, since, None);
    TotalSplit(w.trades.Keys, after, tr.id);
    assert w.trades.Keys - {tr.id} == db.trades.Keys;
    TotalMonotone(db.trades.Keys, after, before);
  }

  /** A state change releases or leaves a charge; it never adds one. */
  lemma ExposureMoves(pol: Policy, db: Db, id: TradeId, from: TradeState, to: TradeState, at: Time, buyer: AgentId, now: Time, exclude: Option<TradeId>)
    requires Edge(from, to)
    ensures ExposureBut(pol, CasState(db, id, from, to, at), buyer, now, exclude) <= ExposureBut(pol, db, buyer, now, exclude)
  {
    hide UsdOf, FirstCommit, ExposureBut;
    PointwiseLess(pol, db, CasState(db, id, from, to, at), buyer, now, now, exclude);
  }

  /** An event can only add to its own trade's charge. */
  lemma ExposureLogsOthers(pol: Policy, db: Db, e: Event, buyer: AgentId, now: Time)
    ensures ExposureBut(pol, AppendEvent(db, e), buyer, now, Some(e.trade)) == ExposureBut(pol, db, buyer, now, Some(e.trade))
  {
    hide UsdOf, FirstCommit, Released, ExposureBut;
    var w := AppendEvent(db, e);
    forall t | t in db.trades && t != e.trade ensures EngagedAt(w, t) == EngagedAt(db, t) {
      FirstCommitAppends(db.events, e, t);
    }
    hide EngagedAt;
    PointwiseLess(pol, db, w, buyer, now, now, Some(e.trade));
    PointwiseLess(pol, w, db, buyer, now, now, Some(e.trade));
  }

  /** Only a trade's first commitment can move its charge into the window. */
  lemma ExposureLogs(pol: Policy, db: Db, e: Event, buyer: AgentId, now: Time)
    requires !Committed(e.to) || FirstCommit(db.events, e.trade).Some?
    ensures Exposed(pol, AppendEvent(db, e), buyer, now) <= Exposed(pol, db, buyer, now)
  {
    hide UsdOf, FirstCommit, Released, ExposureBut;
    var w := AppendEvent(db, e);
    forall t | t in db.trades ensures EngagedAt(w, t) <= EngagedAt(db, t) {
      FirstCommitAppends(db.events, e, t);
    }
    hide EngagedAt;
    PointwiseLess(pol, db, w, buyer, now, now, None);
  }

  // ---------------------------------------------------------------- what the checks establish

  /** Room for this trade's value beside everything else its buyer holds. */
  ghost predicate Covered(pol: Policy, db: Db, tr: Trade, now: Time)
  {
    && tr.id in db.trades && tr.SameTerms(db.trades[tr.id])
    && Usd(pol, tr) + ExposureBut(pol, db, tr.buyer, now, Some(tr.id)) <= DayCap(pol, tr.buyer)
  }

  ghost predicate WithinCap(pol: Policy, db: Db, id: TradeId, now: Time)
  {
    id in db.trades && Exposed(pol, db, db.trades[id].buyer, now) <= DayCap(pol, db.trades[id].buyer)
  }

  lemma CoveredIsWithin(pol: Policy, db: Db, tr: Trade, now: Time)
    requires Covered(pol, db, tr, now)
    ensures WithinCap(pol, db, tr.id, now)
  {
    hide Exposed, ExposureBut, Charge, UsdOf;
    ExposureSplits(pol, db, tr.buyer, now, tr.id);
    ChargeIsBounded(pol, db, tr.buyer, now - pol.window, tr.id);
  }

  predicate CoveredMove(to: TradeState) { to == SettlementPending || to == Recorded }

  /** What a call that passed the spending check still knows of its buyer's exposure. */
  ghost predicate CapFact(pol: Policy, db: Db, now: Time, f: Frame)
  {
    match f
    case Open(CreateInsert(tr, _)) => Usd(pol, tr) + Exposed(pol, db, tr.buyer, now) <= DayCap(pol, tr.buyer)
    case Open(CreateLog(tr, _, _)) => tr.id in db.trades && db.trades[tr.id].buyer == tr.buyer && WithinCap(pol, db, tr.id, now)
    case Leave(Building(tr, _, _)) => Covered(pol, db, tr, now)
    case Move(Applying(tr, _, to, _, cont, _)) => (CoveredMove(to) ==> Covered(pol, db, tr, now)) && ContTo(cont, to, tr.id)
    case Move(Logging(tr, _, to, _, cont, _)) => (CoveredMove(to) ==> Covered(pol, db, tr, now)) && ContTo(cont, to, tr.id)
    case Move(Rereading(id, cont)) =>
      && (Unsigned(cont) || cont.ThenRequest? ==> WithinCap(pol, db, id, now))
      && (cont.ThenRequest? ==> cont.request.trade == id)
    case Stamp(p) => p.proof.None? ==> WithinCap(pol, db, if p.ReceiptCheck? then p.tr.id else p.record.trade.id, now)
    case Returned(OkRequest(r)) => WithinCap(pol, db, r.trade, now)
    case Returned(OkReceipt(r)) => r.signature.None? ==> WithinCap(pol, db, r.trade, now)
    case _ => true
  }

  ghost predicate ContTo(cont: Cont, to: TradeState, id: TradeId)
  {
    && (Unsigned(cont) ==> to == Recorded)
    && (cont.ThenRequest? ==> to == SettlementPending && cont.request.trade == id)
  }

  // ---------------------------------------------------------------- facts survive

  lemma CoveredReads(pol: Policy, v: Db, w: Db, tr: Trade, now: Time)
    requires v.trades == w.trades && v.events == w.events && Covered(pol, v, tr, now)
    ensures Covered(pol, w, tr, now)
  {
    hide ExposureBut;
    ExposureReads(pol, v, w, tr.buyer, now, Some(tr.id));
  }

  lemma WithinReads(pol: Policy, v: Db, w: Db, id: TradeId, now: Time)
    requires v.trades == w.trades && v.events == w.events && WithinCap(pol, v, id, now)
    ensures WithinCap(pol, w, id, now)
  {
    hide ExposureBut;
    ExposureReads(pol, v, w, v.trades[id].buyer, now, None);
  }

  lemma CoveredMoves(pol: Policy, db: Db, m: Moving, now: Time)
    requires m.Applying? && Edge(m.tr.state, m.to) && Covered(pol, db, m.tr, now)
    ensures Covered(pol, CasState(db, m.tr.id, m.tr.state, m.to, m.at), m.tr, now)
  {
    hide ExposureBut, Edge;
    ExposureMoves(pol, db, m.tr.id, m.tr.state, m.to, m.at, m.tr.buyer, now, Some(m.tr.id));
  }

  lemma CoveredLogs(pol: Policy, db: Db, e: Event, tr: Trade, now: Time)
    requires e.trade == tr.id && Covered(pol, db, tr, now)
    ensures Covered(pol, AppendEvent(db, e), tr, now)
  {
    hide ExposureBut;
    ExposureLogsOthers(pol, db, e, tr.buyer, now);
  }

  /** Time only shrinks exposure. */
  lemma CapFactAges(pol: Policy, db: Db, now: Time, to: Time, f: Frame)
    requires CapFact(pol, db, now, f) && now <= to
    ensures CapFact(pol, db, to, f)
  {
    forall b, x ensures ExposureBut(pol, db, b, to, x) <= ExposureBut(pol, db, b, now, x) {
      ExposureAges(pol, db, b, now, to, x);
    }
    hide ExposureBut;
  }

  // ---------------------------------------------------------------- one step of the only running call

  /** Frames no check stands behind. */
  predicate Free(f: Frame)
  {
    match f
    case Open(o) => !o.CreateInsert? && !o.CreateLog?
    case Leave(l) => !l.Building?
    case Move(Applying(_, _, to, _, cont, _)) => !CoveredMove(to) && FreeCont(cont)
    case Move(Logging(_, _, _, _, _, _)) => false
    case Move(Rereading(_, cont)) => FreeCont(cont)
    case Stamp(p) => p.proof.Some?
    case Returned(OkRequest(_)) => false
    case Returned(OkReceipt(r)) => r.signature.Some?
    case _ => true
  }

  predicate FreeCont(cont: Cont) { !cont.ThenRequest? && (cont.ThenLedger? ==> cont.sig.Some?) }

  lemma FreeIsFact(pol: Policy, db: Db, now: Time, f: Frame)
    requires Free(f)
    ensures CapFact(pol, db, now, f)
  {
    hide Covered, WithinCap;
  }

  lemma ApplyIsFree(tr: Trade, agent: Actor, to: TradeState, override: Option<EventType>, cont: Cont, now: Time)
    requires !CoveredMove(to) && FreeCont(cont)
    ensures Free(Apply(tr, agent, to, override, cont, now))
  {
  }

  lemma StartIsFree(cfg: Config, db: Db, now: Time, o: Opening, e: Env)
    requires cfg.capped && OpenReady(cfg, db, now, o, e) && (o.Start? || o.CreateLock?)
    ensures Free(AdvanceOpen(cfg, db, now, o, e).frame)
  {
    hide IsBatch;
    if o.Start? && !o.cmd.Create? && !o.cmd.SweepAccepted? && !o.cmd.SweepOpen? && o.cmd.id in db.trades {
      var tr := db.trades[o.cmd.id];
      var agent := if o.cmd.Begin? || o.cmd.Dispute? then Some(o.cmd.actor) else None;
      ApplyIsFree(tr, agent, Negotiating, None, Return, now);
      ApplyIsFree(tr, agent, Disputed, None, Return, now);
      ApplyIsFree(tr, None, Resolved, Some(EventResolved), Return, now);
      hide Apply;
    }
  }

  lemma SettleIsFree(cfg: Config, db: Db, now: Time, cluster: Cluster, s: Settling, e: Env)
    requires SettleReady(db, s, e)
    ensures Free(AdvanceSettle(cfg, db, now, cluster, s, e).frame)
  {
    hide Apply, SettleReady, ClusterOk, AnySigned;
    ApplyIsFree(s.tr, None, Cancelled, Some(EventExpired), Return, now);
    ApplyIsFree(s.tr, Some(s.tr.buyer), Disputed, None, Refuse, now);
    if !s.ConfirmList? && !s.ConfirmCurrent? && !s.ReconcileList? && !s.Lapsing? && !s.Withdrawing? {
      ApplyIsFree(s.tr, Some(s.tr.buyer), Settled, None, ThenLedger(Some(s.sig)), now);
    }
  }

  lemma CapOpen(cfg: Config, pol: Policy, w: World, o: Opening, e: Env)
    requires Enforces(cfg, pol) && OpenReady(cfg, w.db, w.now, o, e) && CapFact(pol, w.db, w.now, Open(o))
    ensures var r := AdvanceOpen(cfg, w.db, w.now, o, e); CapFact(pol, r.db, w.now, r.frame)
  {
    hide ExposureBut, Effective, PriceOf, IsBatch, Begun;
    match o
    case Start(_) =>
      StartIsFree(cfg, w.db, w.now, o, e);
      FreeIsFact(pol, w.db, w.now, AdvanceOpen(cfg, w.db, w.now, o, e).frame);
    case CreateLock(_, _) =>
    case CreateCheck(tr, _) =>
      if cfg.admits(w.db, tr, None, w.now) { assert Admits(pol, w.db, tr, None, w.now); }
    case CreateInsert(tr, _) => if CanInsert(w.db, tr) { ExposureInserts(pol, w.db, tr, tr.buyer, w.now); }
    case CreateLog(_, _, _) =>
    case Repeating(_) =>
  }

  lemma CapLeave(cfg: Config, pol: Policy, w: World, l: Leaving, e: Env)
    requires Enforces(cfg, pol) && LeaveReady(w.db, l, e)
    requires CapFact(pol, w.db, w.now, Leave(l)) && Alone(cfg, w.db, w.now, Leave(l))
    ensures var r := AdvanceLeave(cfg, w.db, w.now, w.cluster, l, e); CapFact(pol, r.db, w.now, r.frame)
  {
    match l
    case CancelLive(tr, actor) => CancelIsFree(cfg, pol, w, l, e);
    case CancelDeadline(tr, actor) => CancelIsFree(cfg, pol, w, l, e);
    case Spending(tr, actor, build) => CapSpending(cfg, pol, w, tr, actor, build, e);
    case Building(tr, actor, at) => CapBuilding(cfg, pol, w, tr, actor, at, e);
  }

  lemma CancelIsFree(cfg: Config, pol: Policy, w: World, l: Leaving, e: Env)
    requires l.CancelLive? || l.CancelDeadline?
    ensures var r := AdvanceLeave(cfg, w.db, w.now, w.cluster, l, e); CapFact(pol, r.db, w.now, r.frame)
  {
    hide CapFact, HasLiveRequest, PastDeadline, Apply;
    ApplyIsFree(l.tr, Some(l.actor), Cancelled, None, Return, w.now);
    FreeIsFact(pol, w.db, w.now, AdvanceLeave(cfg, w.db, w.now, w.cluster, l, e).frame);
  }

  /** The check measured everything but the trade itself. */
  lemma CapSpending(cfg: Config, pol: Policy, w: World, tr: Trade, actor: AgentId, build: bool, e: Env)
    requires Enforces(cfg, pol) && cfg.capped && Exact(w.db, tr)
    ensures var r := AdvanceLeave(cfg, w.db, w.now, w.cluster, Spending(tr, actor, build), e); CapFact(pol, r.db, w.now, r.frame)
  {
    hide Enforces, Covered, WithinCap, Exact, Apply;
    if cfg.admits(w.db, tr, Some(tr.id), w.now) {
      AdmittedIsCovered(cfg, pol, w.db, tr, w.now);
      ApplyRecorded(pol, w.db, tr, actor, w.now);
    }
  }

  lemma ApplyRecorded(pol: Policy, db: Db, tr: Trade, actor: AgentId, now: Time)
    requires Covered(pol, db, tr, now)
    ensures CapFact(pol, db, now, Apply(tr, Some(actor), Recorded, None, ThenLedger(None), now))
  {
    hide Covered, WithinCap;
  }

  lemma AdmittedIsCovered(cfg: Config, pol: Policy, db: Db, tr: Trade, now: Time)
    requires Enforces(cfg, pol) && Exact(db, tr) && cfg.admits(db, tr, Some(tr.id), now)
    ensures Covered(pol, db, tr, now)
  {
    hide ExposureBut, Effective, PriceOf, DayCap, ToMicro;
    assert Admits(pol, db, tr, Some(tr.id), now);
  }

  lemma CapBuilding(cfg: Config, pol: Policy, w: World, tr: Trade, actor: AgentId, at: Time, e: Env)
    requires e.freshId !in w.db.requests && Covered(pol, w.db, tr, w.now)
    ensures var r := AdvanceLeave(cfg, w.db, w.now, w.cluster, Building(tr, actor, at), e); CapFact(pol, r.db, w.now, r.frame)
  {
    hide Covered, WithinCap;
    var v := CreateRequest(w.db, NewRequest(tr, w.cluster, at, e));
    CoveredReads(pol, w.db, v, tr, w.now);
    CoveredIsWithin(pol, v, tr, w.now);
  }

  lemma CapMove(cfg: Config, pol: Policy, w: World, m: Moving)
    requires TradesOk(w.db, w.now) && MoveOk(cfg, w, m) && Alone(cfg, w.db, w.now, Move(m)) && CapFact(pol, w.db, w.now, Move(m))
    ensures var r := AdvanceMove(w.db, w.now, m); CapFact(pol, r.db, w.now, r.frame)
  {
    hide Copy, ContOk, HasRequest, Proven, AcceptedBy, Edge;
    match m
    case Applying(tr, agent, to, kind, cont, at) =>
      if CoveredMove(to) {
        CoveredMoves(pol, w.db, m, w.now);
        CoveredIsWithin(pol, CasState(w.db, tr.id, tr.state, to, at), tr, w.now);
      }
      hide Covered, WithinCap;
    case Logging(tr, agent, to, kind, cont, at) =>
      if CoveredMove(to) {
        var ev := Event(tr.id, agent, kind, Some(tr.state), to, at);
        CoveredLogs(pol, w.db, ev, tr, w.now);
        CoveredIsWithin(pol, AppendEvent(w.db, ev), tr, w.now);
      }
      hide Covered, WithinCap;
    case Rereading(id, cont) =>
      hide Covered, WithinCap;
  }
}
