/** The one call the daily cap does not cover: disputing a trade still in "accepted" makes
    no cap check and moves the trade's charge to now. What that does to its buyer's exposure
    exactly, and a run in which it takes the buyer past the cap. */
module Disputes {
  import opened Options
  import opened Domain
  import opened Tables
  import opened Protocol
  import opened Safety
  import opened Interleaving
  import opened Runs
  import opened EventLog
  import opened MethodGrain
  import opened Sequential
  import opened RunningAlone
  import opened Spending
  import opened Exposure
  import opened Caps
  import opened CapRuns
  import Money
  import opened Pricing

  // ---------------------------------------------------------------- a dispute, start to end

  /** Everything a dispute of an accepted trade by one of its parties leaves behind. */
  function AfterDispute(db: Db, actor: AgentId, t: TradeId, now: Time): Db
  {
    AppendEvent(CasState(db, t, Accepted, Disputed, now),
                Event(t, Some(actor), EventDisputed, Some(Accepted), Disputed, now))
  }

  predicate Disputable(db: Db, actor: AgentId, t: TradeId)
  {
    t in db.trades && db.trades[t].id == t && db.trades[t].state == Accepted && db.trades[t].Party(actor)
  }

  /** Where a dispute stands after so many of its steps. */
  function DisputeAt(w: World, actor: AgentId, t: TradeId, k: nat): (World, Frame)
    requires Disputable(w.db, actor, t) && k <= 4
  {
    var tr, moved := w.db.trades[t], CasState(w.db, t, Accepted, Disputed, w.now);
    if k == 0 then (w, Open(Start(Dispute(actor, t))))
    else if k == 1 then (w, Move(Applying(tr, Some(actor), Disputed, EventDisputed, Return, w.now)))
    else if k == 2 then
      (w.(db := moved), Move(Logging(tr, Some(actor), Disputed, EventDisputed, Return, w.now)))
    else if k == 3 then (w.(db := AfterDispute(w.db, actor, t, w.now)), Move(Rereading(t, Return)))
    else (w.(db := AfterDispute(w.db, actor, t, w.now)), Returned(OkTrade(moved.trades[t])))
  }

  lemma DisputeAtNext(cfg: Config, w: World, actor: AgentId, t: TradeId, k: nat, e: Env)
    requires Disputable(w.db, actor, t) && k < 4
    ensures var (v, f) := DisputeAt(w, actor, t, k);
            && Ready(cfg, v.db, v.now, f, e) && !f.Returned?
            && (Interleaving.After(v, Advance(cfg, v.db, v.now, v.cluster, f, e), Shown(f, e)),
                Advance(cfg, v.db, v.now, v.cluster, f, e).frame) == DisputeAt(w, actor, t, k + 1)
  {
    var (v, f) := DisputeAt(w, actor, t, k);
    assert v.landed + Shown(f, e) == v.landed;
    if k == 0 {
      assert Advance(cfg, v.db, v.now, v.cluster, f, e) == Effect(w.db, DisputeAt(w, actor, t, 1).1);
    } else {
      assert Advance(cfg, v.db, v.now, v.cluster, f, e) == AdvanceMove(v.db, v.now, f.moving);
    }
  }

  /** The call made alone has no choices to make. */
  lemma {:induction false} DisputeTrace(cfg: Config, w: World, actor: AgentId, t: TradeId, es: seq<Env>)
    requires Disputable(w.db, actor, t) && Exec(cfg, w, Open(Start(Dispute(actor, t))), es).Some?
    ensures |es| <= 4 && Exec(cfg, w, Open(Start(Dispute(actor, t))), es).value == DisputeAt(w, actor, t, |es|)
  {
    hide Ready, Advance, Shown, DisputeAt, Disputable;
    if es == [] {
      DisputeAtStart(w, actor, t);
    } else {
      var e, before := es[|es| - 1], es[..|es| - 1];
      DisputeTrace(cfg, w, actor, t, before);
      if |before| == 4 {
        DisputeAtEnd(w, actor, t);
      } else {
        DisputeAtNext(cfg, w, actor, t, |before|, e);
      }
    }
  }

  lemma DisputeAtStart(w: World, actor: AgentId, t: TradeId)
    requires Disputable(w.db, actor, t)
    ensures DisputeAt(w, actor, t, 0) == (w, Open(Start(Dispute(actor, t))))
  {
  }

  lemma DisputeAtEnd(w: World, actor: AgentId, t: TradeId)
    requires Disputable(w.db, actor, t)
    ensures DisputeAt(w, actor, t, 4).1.Returned? && DisputeAt(w, actor, t, 4).0 == w.(db := AfterDispute(w.db, actor, t, w.now))
    ensures forall k :: 0 <= k < 4 ==> !DisputeAt(w, actor, t, k).1.Returned?
  {
  }

  lemma DisputeAlone(cfg: Config, w: World, actor: AgentId, t: TradeId, v: World, out: Outcome)
    requires Disputable(w.db, actor, t) && Called(cfg, w, Dispute(actor, t), v, out)
    ensures v == w.(db := AfterDispute(w.db, actor, t, w.now)) && out == OkTrade(v.db.trades[t])
  {
    hide Exec;
    var es :| Exec(cfg, w, Open(Start(Dispute(actor, t))), es) == Some((v, Returned(out)));
    DisputeTrace(cfg, w, actor, t, es);
    DisputeAtEnd(w, actor, t);
  }

  // ---------------------------------------------------------------- what it charges

  /** A trade still accepted has no commitment in its log. */
  lemma {:induction false} SpellsUncommitted(events: seq<Event>, t: TradeId, s: Option<TradeState>)
    requires Spells(events, t, s) && (s.Some? ==> s.value in {Proposed, Negotiating, Accepted})
    ensures FirstCommit(events, t).None?
  {
    if events != [] {
      var e, before := events[|events| - 1], events[..|events| - 1];
      SpellsUncommitted(before, t, if e.trade == t then e.from else s);
    }
  }

  /** A move of one trade is nothing to the others' charges. */
  lemma ExposureMovesOthers(pol: Policy, db: Db, t: TradeId, from: TradeState, to: TradeState, at: Time, buyer: AgentId, now: Time)
    ensures ExposureBut(pol, CasState(db, t, from, to, at), buyer, now, Some(t)) == ExposureBut(pol, db, buyer, now, Some(t))
  {
    hide UsdOf, FirstCommit, Released, ExposureBut;
    var w := CasState(db, t, from, to, at);
    PointwiseLess(pol, db, w, buyer, now, now, Some(t));
    PointwiseLess(pol, w, db, buyer, now, now, Some(t));
  }

  /** A first commitment stamped inside the window charges the trade in full. */
  lemma DisputeCharges(pol: Policy, db: Db, t: TradeId, e: Event, now: Time)
    requires t in db.trades && e.trade == t && e.to == Disputed && db.trades[t].state == Disputed
    requires FirstCommit(db.events, t).None? && e.at >= now - pol.window
    ensures var tr := db.trades[t];
            Exposed(pol, AppendEvent(db, e), tr.buyer, now)
            == ExposureBut(pol, db, tr.buyer, now, Some(t)) + Usd(pol, tr)
  {
    hide ExposureBut, UsdOf, Exposed;
    var tr, w := db.trades[t], AppendEvent(db, e);
    ExposureSplits(pol, w, tr.buyer, now, t);
    ExposureLogsOthers(pol, db, e, tr.buyer, now);
    FirstCommitAppends(db.events, e, t);
  }

  /** Between calls, a dispute of an accepted trade leaves its buyer engaged for everything
      else and the trade in full: within the daily cap exactly when the trade's value fits
      beside the rest, which is a check the call does not make. It adds the trade's value
      exactly when the trade's engagement had left the window. */
  lemma DisputeFitsIff(cfg: Config, pol: Policy, s: State, actor: AgentId, t: TradeId, v: World, out: Outcome)
    requires Between(cfg, s) && Disputable(s.db, actor, t) && pol.window >= 0
    requires Called(cfg, WorldOf(s), Dispute(actor, t), v, out)
    ensures var tr := s.db.trades[t];
            && t in v.db.trades && v.db.trades[t].state == Disputed && v.now == s.now
            && out == OkTrade(v.db.trades[t])
            && Exposed(pol, v.db, tr.buyer, v.now) == ExposureBut(pol, s.db, tr.buyer, s.now, Some(t)) + Usd(pol, tr)
            && (Exposed(pol, v.db, tr.buyer, v.now) <= DayCap(pol, tr.buyer)
                <==> ExposureBut(pol, s.db, tr.buyer, s.now, Some(t)) + Usd(pol, tr) <= DayCap(pol, tr.buyer))
            && Exposed(pol, v.db, tr.buyer, v.now)
               == Exposed(pol, s.db, tr.buyer, s.now) + (if EngagedAt(s.db, t) < s.now - pol.window then Usd(pol, tr) else 0)
  {
    hide Called, Between, Inv, Fact, Exposed, ExposureBut, DayCap, Usd;
    BetweenFact(cfg, s);
    DisputeAlone(cfg, WorldOf(s), actor, t, v, out);
    FactUncommitted(cfg, s.db, s.now, t);
    var tr, moved := s.db.trades[t], CasState(s.db, t, Accepted, Disputed, s.now);
    ExposureMovesOthers(pol, s.db, t, Accepted, Disputed, s.now, tr.buyer, s.now);
    DisputeCharges(pol, moved, t, Event(t, Some(actor), EventDisputed, Some(Accepted), Disputed, s.now), s.now);
    SameUsd(pol, tr, moved.trades[t]);
    ExposureSplits(pol, s.db, tr.buyer, s.now, t);
    OpenCharge(pol, s.db, t, s.now);
  }

  lemma FactUncommitted(cfg: Config, db: Db, now: Time, t: TradeId)
    requires Fact(cfg, db, now, IDLE) && t in db.trades && db.trades[t].state == Accepted
    ensures FirstCommit(db.events, t).None?
  {
    hide Solo, InTimeOrder, Spells;
    FactLogged(cfg, db, now, IDLE);
    assert Spells(db.events, t, StateOf(db, t));
    SpellsUncommitted(db.events, t, StateOf(db, t));
  }

  lemma SameUsd(pol: Policy, a: Trade, b: Trade)
    requires a.amount == b.amount && a.mint == b.mint
    ensures Usd(pol, a) == Usd(pol, b)
  {
    hide UsdOf;
  }

  /** An accepted trade is charged while it counts as engaged inside the window. */
  lemma OpenCharge(pol: Policy, db: Db, t: TradeId, now: Time)
    requires t in db.trades && db.trades[t].state == Accepted 
    ensures Charge(pol, db, db.trades[t].buyer, now - pol.window, None, t)
            == if EngagedAt(db, t) < now - pol.window then 0 else Usd(pol, db.trades[t])
  {
    hide UsdOf, EngagedAt;
  }

  // ---------------------------------------------------------------- a run past the cap

  const BUYER: AgentId := 1
  const SELLER: AgentId := 2
  const QUIET := Env(None, true, 0, 0, 0, NotFound, [])

  /** A price the buyer can pay once within a day's cap, and not twice. */
  ghost predicate Once(pol: Policy, a: Money.Amount, m: Mint)
  {
    var price, cap := PriceOf(pol.rates, a, m), ToMicro(Effective(pol, BUYER).perTrade);
    && price.Priced? && cap.Priced? && price.usd <= cap.usd
    && price.usd <= DayCap(pol, BUYER) < 2 * price.usd && pol.window >= 0
  }

  function Row(a: Money.Amount, m: Mint, id: TradeId, state: TradeState, made: Time, moved: Time): Trade
  {
    Trade(id, 0, BUYER, SELLER, a, m, Offchain, state, None, made, moved)
  }

  /** Only these trades, nothing committed yet, these acceptances of the first. */
  ghost predicate Holding(w: World, rows: map<TradeId, Trade>, accepted: set<AgentId>)
  {
    && w.db.trades == rows && (forall e :: e in w.db.events ==> !Committed(e.to))
    && forall x :: (0, x) in w.db.acceptances <==> x in accepted
  }

  /** One more step of the call, its effect known. */
  lemma Go(cfg: Config, v: World, f: Frame, es: seq<Env>, w: World, g: Frame, e: Env, r: Effect)
    requires Exec(cfg, v, f, es) == Some((w, g)) && !g.Returned? && !g.Settle?
    requires Ready(cfg, w.db, w.now, g, e) && Advance(cfg, w.db, w.now, w.cluster, g, e) == r
    ensures Exec(cfg, v, f, es + [e]) == Some((w.(db := r.db), r.frame))
  {
    hide Ready, Advance, Exec;
    ExecStep(cfg, v, f, es, w, g, e);
    assert w.landed + Shown(g, e) == w.landed;
  }

  lemma GoMove(cfg: Config, v: World, f: Frame, es: seq<Env>, w: World, m: Moving)
    requires m.Applying? && m.cont.Return? && Exec(cfg, v, f, es) == Some((w, Move(m))) && CasApplies(w.db, m.tr.id, m.tr.state)
    ensures var moved := CasState(w.db, m.tr.id, m.tr.state, m.to, m.at);
            var db := AppendEvent(moved, Event(m.tr.id, m.agent, m.kind, Some(m.tr.state), m.to, w.now));
            Exec(cfg, v, f, es + [QUIET] + [QUIET] + [QUIET]) == Some((w.(db := db), Returned(OkTrade(moved.trades[m.tr.id]))))
  {
    hide Exec;
    var a := AdvanceMove(w.db, w.now, m);
    Go(cfg, v, f, es, w, Move(m), QUIET, a);
    var b := AdvanceMove(a.db, w.now, a.frame.moving);
    Go(cfg, v, f, es + [QUIET], w.(db := a.db), a.frame, QUIET, b);
    Go(cfg, v, f, es + [QUIET] + [QUIET], w.(db := b.db), b.frame, QUIET, AdvanceMove(b.db, w.now, b.frame.moving));
  }

  ghost predicate NoneHeld(db: Db, since: Time, exclude: Option<TradeId>) { forall t :: !Held(db, BUYER, since, exclude, t) }

  lemma Unheld(pol: Policy, db: Db, now: Time, exclude: Option<TradeId>)
    requires forall t :: t in db.trades && exclude != Some(t) ==> EngagedAt(db, t) < now - pol.window
    ensures ExposureBut(pol, db, BUYER, now, exclude) == 0
    ensures NoneHeld(db, now - pol.window, exclude)
  {
    hide EngagedAt;
    ZeroTotal(db.trades.Keys, Charges(pol, db, BUYER, now - pol.window, exclude));
  }

  /** A create that finds nothing of the buyer's in the window is admitted. */
  lemma CreateChecked(cfg: Config, pol: Policy, w: World, a: Money.Amount, m: Mint, id: TradeId) returns (es: seq<Env>)
    requires Enforces(cfg, pol) && Once(pol, a, m)
    requires forall t :: t in w.db.trades ==> EngagedAt(w.db, t) < w.now - pol.window
    ensures Exec(cfg, w, Open(Start(Create(0, BUYER, None))), es)
            == Some((w, Open(CreateInsert(Row(a, m, id, Proposed, w.now, w.now), BUYER))))
  {
    hide Exec, Once, EngagedAt, ExposureBut, Enforces, NoneHeld;
    var f, draft := Open(Start(Create(0, BUYER, None))), Row(a, m, id, Proposed, 0, 0);
    var row, e := Row(a, m, id, Proposed, w.now, w.now), QUIET.(draft := Some(draft));
    Unheld(pol, w.db, w.now, None);
    Admission(cfg, pol, w.db, draft, a, m, w.now);
    ExecNone(cfg, w, f);
    Go(cfg, w, f, [], w, f, e, Effect(w.db, Open(CreateLock(draft, BUYER))));
    Go(cfg, w, f, [] + [e], w, Open(CreateLock(draft, BUYER)), QUIET, Effect(w.db, Open(CreateCheck(draft, BUYER))));
    Go(cfg, w, f, [] + [e] + [QUIET], w, Open(CreateCheck(draft, BUYER)), QUIET, Effect(w.db, Open(CreateInsert(row, BUYER))));
    es := [] + [e] + [QUIET] + [QUIET];
  }

  lemma CreateAlone(cfg: Config, pol: Policy, w: World, a: Money.Amount, m: Mint, id: TradeId, rows: map<TradeId, Trade>, accepted: set<AgentId>)
    returns (v: World)
    requires Enforces(cfg, pol) && Once(pol, a, m) && Holding(w, rows, accepted) && id !in rows
    requires forall t :: t in rows ==> EngagedAt(w.db, t) < w.now - pol.window
    ensures Holding(v, rows[id := Row(a, m, id, Proposed, w.now, w.now)], accepted) && v.now == w.now
    ensures exists out :: Called(cfg, w, Create(0, BUYER, None), v, out)
  {
    hide Exec, Once, EngagedAt, Enforces;
    var f, row := Open(Start(Create(0, BUYER, None))), Row(a, m, id, Proposed, w.now, w.now);
    var es := CreateChecked(cfg, pol, w, a, m, id);
    var i := Effect(InsertTrade(w.db, row), Open(CreateLog(row, BUYER, w.now)));
    Go(cfg, w, f, es, w, Open(CreateInsert(row, BUYER)), QUIET, i);
    var l := Effect(AppendEvent(i.db, Event(id, Some(BUYER), EventProposed, None, Proposed, w.now)), Returned(OkTrade(row)));
    Go(cfg, w, f, es + [QUIET], w.(db := i.db), i.frame, QUIET, l);
    v := w.(db := l.db);
    assert Called(cfg, w, Create(0, BUYER, None), v, OkTrade(row));
  }

  lemma ExecNone(cfg: Config, w: World, f: Frame)
    ensures Exec(cfg, w, f, []) == Some((w, f))
  {
  }

  lemma Admission(cfg: Config, pol: Policy, db: Db, tr: Trade, a: Money.Amount, m: Mint, now: Time)
    requires Enforces(cfg, pol) && Once(pol, a, m) && tr.amount == a && tr.mint == m && tr.buyer == BUYER
    requires ExposureBut(pol, db, BUYER, now, None) == 0 && NoneHeld(db, now - pol.window, None)
    ensures cfg.capped && cfg.admits(db, tr, None, now)
  {
    hide ExposureBut, Effective, PriceOf, DayCap, ToMicro, Held;
    assert Admits(pol, db, tr, None, now);
  }

  lemma BeginAlone(cfg: Config, w: World, a: Money.Amount, m: Mint) returns (v: World)
    requires Holding(w, map[0 := Row(a, m, 0, Proposed, 0, 0)], {}) && w.now == 0
    ensures Holding(v, map[0 := Row(a, m, 0, Negotiating, 0, 0)], {}) && v.now == 0
    ensures exists out :: Called(cfg, w, Begin(BUYER, 0), v, out)
  {
    hide Exec;
    var f, row := Open(Start(Begin(BUYER, 0))), Row(a, m, 0, Proposed, 0, 0);
    var p := Applying(row, Some(BUYER), Negotiating, EventNegotiating, Return, 0);
    ExecNone(cfg, w, f);
    Go(cfg, w, f, [], w, f, QUIET, Effect(w.db, Move(p)));
    GoMove(cfg, w, f, [] + [QUIET], w, p);
    var db := CasState(w.db, 0, Proposed, Negotiating, 0);
    v := w.(db := AppendEvent(db, Event(0, Some(BUYER), EventNegotiating, Some(Proposed), Negotiating, 0)));
    assert v.db.trades == map[0 := Row(a, m, 0, Negotiating, 0, 0)];
    assert Called(cfg, w, Begin(BUYER, 0), v, OkTrade(db.trades[0]));
  }

  /** An acceptance up to the count of the parties that have accepted. */
  lemma AcceptCounts(cfg: Config, w: World, a: Money.Amount, m: Mint, actor: AgentId, accepted: set<AgentId>) returns (v: World, es: seq<Env>)
    requires Holding(w, map[0 := Row(a, m, 0, Negotiating, 0, 0)], accepted) && w.now == 0
    requires actor in {BUYER, SELLER} && actor !in accepted
    ensures Holding(v, map[0 := Row(a, m, 0, Negotiating, 0, 0)], accepted + {actor}) && v.now == 0
    ensures Exec(cfg, w, Open(Start(Accept(actor, 0))), es) == Some((v, Agree(AcceptCount(Row(a, m, 0, Negotiating, 0, 0), actor))))
  {
    hide Exec;
    var f, row := Open(Start(Accept(actor, 0))), Row(a, m, 0, Negotiating, 0, 0);
    ExecNone(cfg, w, f);
    Go(cfg, w, f, [], w, f, QUIET, Effect(w.db, Agree(AcceptInsert(row, actor, 0))));
    v := w.(db := InsertAcceptance(w.db, 0, actor, 0));
    Go(cfg, w, f, [] + [QUIET], w, Agree(AcceptInsert(row, actor, 0)), QUIET, Effect(v.db, Agree(AcceptRow(0, actor))));
    Go(cfg, w, f, [] + [QUIET] + [QUIET], v, Agree(AcceptRow(0, actor)), QUIET, Effect(v.db, Agree(AcceptCount(row, actor))));
    es := [] + [QUIET] + [QUIET] + [QUIET];
  }

  lemma Counted(w: World, row: Trade, rows: map<TradeId, Trade>, accepted: set<AgentId>)
    requires Holding(w, rows, accepted) && row.id == 0 && row.buyer == BUYER && row.seller == SELLER && accepted <= {BUYER, SELLER}
    ensures Acceptors(w.db, row) == accepted
  {
  }

  lemma FirstAccepts(cfg: Config, w: World, a: Money.Amount, m: Mint) returns (v: World)
    requires Holding(w, map[0 := Row(a, m, 0, Negotiating, 0, 0)], {}) && w.now == 0
    ensures Holding(v, map[0 := Row(a, m, 0, Negotiating, 0, 0)], {BUYER}) && v.now == 0
    ensures exists out :: Called(cfg, w, Accept(BUYER, 0), v, out)
  {
    hide Exec, Acceptors;
    var row, es := Row(a, m, 0, Negotiating, 0, 0), [];
    v, es := AcceptCounts(cfg, w, a, m, BUYER, {});
    assert {} + {BUYER} == {BUYER};
    Counted(v, row, map[0 := row], {BUYER});
    Go(cfg, w, Open(Start(Accept(BUYER, 0))), es, v, Agree(AcceptCount(row, BUYER)), QUIET, Effect(v.db, Returned(OkTrade(row))));
    assert Called(cfg, w, Accept(BUYER, 0), v, OkTrade(row));
  }

  lemma SecondAccepts(cfg: Config, w: World, a: Money.Amount, m: Mint) returns (v: World)
    requires Holding(w, map[0 := Row(a, m, 0, Negotiating, 0, 0)], {BUYER}) && w.now == 0
    ensures Holding(v, map[0 := Row(a, m, 0, Accepted, 0, 0)], {BUYER, SELLER}) && v.now == 0
    ensures exists out :: Called(cfg, w, Accept(SELLER, 0), v, out)
  {
    hide Exec, Acceptors;
    var f, row, u, es := Open(Start(Accept(SELLER, 0))), Row(a, m, 0, Negotiating, 0, 0), w, [];
    u, es := AcceptCounts(cfg, w, a, m, SELLER, {BUYER});
    assert {BUYER} + {SELLER} == {BUYER, SELLER};
    Counted(u, row, map[0 := row], {BUYER, SELLER});
    var p := Applying(row, Some(SELLER), Accepted, EventAccepted, Return, 0);
    Go(cfg, w, f, es, u, Agree(AcceptCount(row, SELLER)), QUIET, Effect(u.db, Move(p)));
    GoMove(cfg, w, f, es + [QUIET], u, p);
    var db := CasState(u.db, 0, Negotiating, Accepted, 0);
    v := u.(db := AppendEvent(db, Event(0, Some(SELLER), EventAccepted, Some(Negotiating), Accepted, 0)));
    assert v.db.trades == map[0 := Row(a, m, 0, Accepted, 0, 0)];
    assert Called(cfg, w, Accept(SELLER, 0), v, OkTrade(db.trades[0]));
  }

  lemma Uncommitted(w: World, rows: map<TradeId, Trade>, accepted: set<AgentId>, t: TradeId)
    requires Holding(w, rows, accepted) && t in rows
    ensures EngagedAt(w.db, t) == if rows[t].createdAt >= 0 then rows[t].createdAt else 0
  {
    FirstCommitIsLeast(w.db.events, t);
  }

  lemma StartsHolding(cluster: Cluster)
    ensures Holding(WorldOf(Init(0, cluster)), map[], {})
  {
  }

  lemma OneAgreed(cfg: Config, pol: Policy, a: Money.Amount, m: Mint) returns (s: State)
    requires Enforces(cfg, pol) && Once(pol, a, m)
    ensures Between(cfg, s) && s.now == 0
    ensures Holding(WorldOf(s), map[0 := Row(a, m, 0, Accepted, 0, 0)], {BUYER, SELLER})
  {
    hide Between, Called, Enforces, EngagedAt, Holding, Once;
    var w, out;
    s := Init(0, 0);
    BetweenStarts(cfg, 0, 0);
    StartsHolding(0);
    w := CreateAlone(cfg, pol, WorldOf(s), a, m, 0, map[], {});
    out :| Called(cfg, WorldOf(s), Create(0, BUYER, None), w, out);
    s := BetweenCalled(cfg, s, Create(0, BUYER, None), w, out);
    assert map[][0 := Row(a, m, 0, Proposed, 0, 0)] == map[0 := Row(a, m, 0, Proposed, 0, 0)];
    w := BeginAlone(cfg, WorldOf(s), a, m);
    out :| Called(cfg, WorldOf(s), Begin(BUYER, 0), w, out);
    s := BetweenCalled(cfg, s, Begin(BUYER, 0), w, out);
    w := FirstAccepts(cfg, WorldOf(s), a, m);
    out :| Called(cfg, WorldOf(s), Accept(BUYER, 0), w, out);
    s := BetweenCalled(cfg, s, Accept(BUYER, 0), w, out);
    w := SecondAccepts(cfg, WorldOf(s), a, m);
    out :| Called(cfg, WorldOf(s), Accept(SELLER, 0), w, out);
    s := BetweenCalled(cfg, s, Accept(SELLER, 0), w, out);
  }

  lemma HoldingTicks(s: State, to: Time, rows: map<TradeId, Trade>, accepted: set<AgentId>)
    requires Holding(WorldOf(s), rows, accepted)
    ensures Holding(WorldOf(s.(now := to)), rows, accepted)
  {
  }

  /** The buyer's first trade is agreed and left alone until its engagement has left the
      window; a second fits the cap by itself. */
  lemma TwoTrades(cfg: Config, pol: Policy, a: Money.Amount, m: Mint) returns (s: State)
    requires Enforces(cfg, pol) && Once(pol, a, m)
    ensures Between(cfg, s) && s.now == pol.window + 1
    ensures Holding(WorldOf(s), map[0 := Row(a, m, 0, Accepted, 0, 0), 1 := Row(a, m, 1, Proposed, s.now, s.now)], {BUYER, SELLER})
  {
    hide Between, Called, Enforces, EngagedAt, Holding;
    var rows := map[0 := Row(a, m, 0, Accepted, 0, 0)];
    s := OneAgreed(cfg, pol, a, m);
    BetweenTicks(cfg, s, pol.window + 1);
    HoldingTicks(s, pol.window + 1, rows, {BUYER, SELLER});
    s := s.(now := pol.window + 1);
    Uncommitted(WorldOf(s), rows, {BUYER, SELLER}, 0);
    var w := CreateAlone(cfg, pol, WorldOf(s), a, m, 1, rows, {BUYER, SELLER});
    var out :| Called(cfg, WorldOf(s), Create(0, BUYER, None), w, out);
    s := BetweenCalled(cfg, s, Create(0, BUYER, None), w, out);
    assert rows[1 := Row(a, m, 1, Proposed, s.now, s.now)]
        == map[0 := Row(a, m, 0, Accepted, 0, 0), 1 := Row(a, m, 1, Proposed, s.now, s.now)];
  }

  /** A run without overlapping calls, every create in it checked, whose last call is a
      dispute: the buyer is within the daily cap before it and past the cap after it. */
  lemma DisputeCanExceed(cfg: Config, pol: Policy, a: Money.Amount, m: Mint) returns (s: State, t: State, out: Outcome)
    requires Enforces(cfg, pol) && Once(pol, a, m)
    ensures Between(cfg, s) && Exposed(pol, s.db, BUYER, s.now) <= DayCap(pol, BUYER)
    ensures Called(cfg, WorldOf(s), Dispute(BUYER, 0), WorldOf(t), out) && Between(cfg, t)
    ensures Exposed(pol, t.db, BUYER, t.now) > DayCap(pol, BUYER)
  {
    hide Between, Called, Enforces, Exposed, ExposureBut, DayCap, EngagedAt;
    s := TwoTrades(cfg, pol, a, m);
    var rows := map[0 := Row(a, m, 0, Accepted, 0, 0), 1 := Row(a, m, 1, Proposed, s.now, s.now)];
    Uncommitted(WorldOf(s), rows, {BUYER, SELLER}, 0);
    Uncommitted(WorldOf(s), rows, {BUYER, SELLER}, 1);
    SecondAlone(pol, s.db, a, m, s.now);
    var w;
    w, out := DisputeRuns(cfg, WorldOf(s), BUYER, 0);
    DisputeFitsIff(cfg, pol, s, BUYER, 0, w, out);
    t := BetweenCalled(cfg, s, Dispute(BUYER, 0), w, out);
    SameUsd(pol, rows[0], rows[1]);
  }

  /** The dispute can be made. */
  lemma DisputeRuns(cfg: Config, w: World, actor: AgentId, t: TradeId) returns (v: World, out: Outcome)
    requires Disputable(w.db, actor, t)
    ensures Called(cfg, w, Dispute(actor, t), v, out)
  {
    hide Exec;
    var f, tr := Open(Start(Dispute(actor, t))), w.db.trades[t];
    var p := Applying(tr, Some(actor), Disputed, EventDisputed, Return, w.now);
    ExecNone(cfg, w, f);
    Go(cfg, w, f, [], w, f, QUIET, Effect(w.db, Move(p)));
    GoMove(cfg, w, f, [] + [QUIET], w, p);
    out := OkTrade(CasState(w.db, t, Accepted, Disputed, w.now).trades[t]);
    v := w.(db := AfterDispute(w.db, actor, t, w.now));
  }

  /** Of the two trades only the second counts before the dispute. */
  lemma SecondAlone(pol: Policy, db: Db, a: Money.Amount, m: Mint, now: Time)
    requires db.trades == map[0 := Row(a, m, 0, Accepted, 0, 0), 1 := Row(a, m, 1, Proposed, now, now)]
    requires EngagedAt(db, 0) < now - pol.window <= EngagedAt(db, 1)
    requires PriceOf(pol.rates, a, m).Priced?
    ensures Exposed(pol, db, BUYER, now) == Usd(pol, db.trades[1]) == PriceOf(pol.rates, a, m).usd
  {
    hide EngagedAt, ExposureBut, Exposed, PriceOf;
    Unheld(pol, db, now, Some(1));
    ExposureSplits(pol, db, BUYER, now, 1);
  }
}
