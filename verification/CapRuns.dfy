/** The daily cap over whole runs at the method grain: nothing but a dispute of a trade
    still in "accepted" can take a buyer past it. */
module CapRuns {
  import opened Pricing
  import opened Options
  import opened Domain
  import opened Tables
  import opened Protocol
  import opened Safety
  import opened Interleaving
  import opened Runs
  import opened EventLog
  import opened MethodGrain
  import opened Sequential
  import opened Spending
  import opened Exposure
  import opened Caps

  // ---------------------------------------------------------------- facts, step by step

  lemma CapStamp(cfg: Config, pol: Policy, w: World, p: Stamping)
    requires CapFact(pol, w.db, w.now, Stamp(p))
    ensures var r := AdvanceStamp(cfg, w.db, w.now, w.cluster, p); CapFact(pol, r.db, w.now, r.frame)
  {
    hide WithinCap, HasEntry, InsertReceipt;
    var r := AdvanceStamp(cfg, w.db, w.now, w.cluster, p);
    assert r.db.trades == w.db.trades && r.db.events == w.db.events by { StampTouches(cfg, w, p); }
    if p.proof.None? {
      WithinReads(pol, w.db, r.db, if p.ReceiptCheck? then p.tr.id else p.record.trade.id, w.now);
    }
  }

  lemma StampTouches(cfg: Config, w: World, p: Stamping)
    ensures var r := AdvanceStamp(cfg, w.db, w.now, w.cluster, p); r.db.trades == w.db.trades && r.db.events == w.db.events
  {
    hide HasEntry;
  }

  lemma RestIsFree(cfg: Config, w: World, f: Frame, e: Env)
    requires Ready(cfg, w.db, w.now, f, e) && (f.Agree? || f.Sweep?)
    ensures Free(Advance(cfg, w.db, w.now, w.cluster, f, e).frame)
  {
    hide Apply, Acceptors, Expirable;
    match f
    case Agree(a) => if a.AcceptCount? { ApplyIsFree(a.row, Some(a.actor), Accepted, None, Return, w.now); }
    case Sweep(s) =>
      if s.Expiring? && s.rest != [] {
        ApplyIsFree(s.rest[0], None, Cancelled, Some(EventExpired), ThenSweep(s.rest[1..], s.cutoff), w.now);
      }
  }

  /** The running call's knowledge of its buyer's exposure survives its own step. */
  lemma CapStep(cfg: Config, pol: Policy, w: World, f: Frame, e: Env)
    requires Enforces(cfg, pol) && WorldOk(cfg, w) && FrameOk(cfg, w, f) && Ready(cfg, w.db, w.now, f, e) && !f.Returned?
    requires Fact(cfg, w.db, w.now, f) && CapFact(pol, w.db, w.now, f)
    ensures var r := Advance(cfg, w.db, w.now, w.cluster, f, e); CapFact(pol, r.db, w.now, r.frame)
  {
    hide TradesOk, AcceptancesOk, RequestsOk, SettlementOk, ChainOk, LedgerOk, ReceiptsOk, Enforces, CapFact, Alone, Logged,
         Quiet, SettledAreSigned, NoneWithoutSettlement,
         OpenOk, AgreeOk, LeaveOk, SettleOk, SweepOk, MoveOk, StampOk, Free,
         OpenReady, LeaveReady, SettleReady, AdvanceOpen, AdvanceAgree, AdvanceLeave, AdvanceSettle, AdvanceSweep,
         AdvanceMove, AdvanceStamp;
    var r := Advance(cfg, w.db, w.now, w.cluster, f, e);
    match f
    case Open(o) => CapOpen(cfg, pol, w, o, e);
    case Leave(l) => CapLeave(cfg, pol, w, l, e);
    case Move(m) => CapMove(cfg, pol, w, m);
    case Stamp(p) => CapStamp(cfg, pol, w, p);
    case Settle(s) =>
      SettleIsFree(cfg, w.db, w.now, w.cluster, s, e);
      FreeIsFact(pol, r.db, w.now, r.frame);
    case _ =>
      RestIsFree(cfg, w, f, e);
      FreeIsFact(pol, r.db, w.now, r.frame);
  }

  // ---------------------------------------------------------------- exposure, step by step

  /** A pending, recorded, settled or disputed trade has a commitment in its log. */
  lemma {:induction false} SpellsCommits(events: seq<Event>, t: TradeId, s: TradeState)
    requires Spells(events, t, Some(s)) && Committed(s)
    ensures FirstCommit(events, t).Some?
  {
    hide Legal;
    var e, before := events[|events| - 1], events[..|events| - 1];
    if e.trade != t { SpellsCommits(before, t, s); }
  }

  lemma ForeignEvent(pol: Policy, db: Db, e: Event, buyer: AgentId, now: Time)
    requires e.trade in db.trades && db.trades[e.trade].buyer != buyer
    ensures Exposed(pol, AppendEvent(db, e), buyer, now) == Exposed(pol, db, buyer, now)
  {
    hide Charge, Exposed, ExposureBut, Usd;
    var w := AppendEvent(db, e);
    ExposureSplits(pol, db, buyer, now, e.trade);
    ExposureSplits(pol, w, buyer, now, e.trade);
    ExposureLogsOthers(pol, db, e, buyer, now);
    ChargeIsBounded(pol, db, buyer, now - pol.window, e.trade);
    ChargeIsBounded(pol, w, buyer, now - pol.window, e.trade);
  }

  /** The running call has just disputed a trade of this buyer that was still accepted. */
  predicate Disputing(db: Db, f: Frame, buyer: AgentId)
  {
    && f.Move? && f.moving.Logging? && f.moving.tr.state == Accepted && f.moving.to == Disputed
    && f.moving.tr.id in db.trades && db.trades[f.moving.tr.id].buyer == buyer
  }

  /** The only steps that can add to a buyer's exposure: inserting a new trade of theirs,
      and logging the first move of one out of "accepted" into a committed state. */
  predicate Raises(db: Db, f: Frame, buyer: AgentId)
  {
    match f
    case Open(CreateInsert(tr, _)) => tr.buyer == buyer
    case Move(Logging(tr, _, to, _, _, _)) =>
      tr.state == Accepted && to in {SettlementPending, Recorded, Disputed}
      && tr.id in db.trades && db.trades[tr.id].buyer == buyer
    case _ => false
  }

  /** No more exposed than before, or within the cap. */
  ghost predicate NoWorse(pol: Policy, v: Db, w: Db, buyer: AgentId, now: Time)
  {
    Exposed(pol, w, buyer, now) <= Exposed(pol, v, buyer, now) || Exposed(pol, w, buyer, now) <= DayCap(pol, buyer)
  }

  lemma LoggingStep(cfg: Config, pol: Policy, w: World, m: Moving, buyer: AgentId)
    requires m.Logging? && m.tr.id in w.db.trades && Logged(w.db, w.now, Move(m)) && CapFact(pol, w.db, w.now, Move(m))
    requires !Disputing(w.db, Move(m), buyer)
    ensures NoWorse(pol, w.db, AdvanceMove(w.db, w.now, m).db, buyer, w.now)
  {
    var ev := Event(m.tr.id, m.agent, m.kind, Some(m.tr.state), m.to, m.at);
    LastSpelled(w.db, w.now, m);
    hide Logged, Exposed;
    if w.db.trades[m.tr.id].buyer != buyer {
      ForeignEvent(pol, w.db, ev, buyer, w.now);
    } else if !Committed(m.to) || FirstCommit(w.db.events, m.tr.id).Some? {
      ExposureLogs(pol, w.db, ev, buyer, w.now);
    } else {
      if Committed(m.tr.state) { SpellsCommits(w.db.events, m.tr.id, m.tr.state); }
      assert CoveredMove(m.to);
      CoveredLogs(pol, w.db, ev, m.tr, w.now);
      CoveredIsWithin(pol, AppendEvent(w.db, ev), m.tr, w.now);
    }
  }

  lemma LoggingRaises(cfg: Config, pol: Policy, w: World, m: Moving, buyer: AgentId)
    requires m.Logging? && m.tr.id in w.db.trades && Logged(w.db, w.now, Move(m)) && !Raises(w.db, Move(m), buyer)
    ensures Exposed(pol, AdvanceMove(w.db, w.now, m).db, buyer, w.now) <= Exposed(pol, w.db, buyer, w.now)
  {
    var ev := Event(m.tr.id, m.agent, m.kind, Some(m.tr.state), m.to, m.at);
    LastSpelled(w.db, w.now, m);
    hide Logged, Exposed;
    if w.db.trades[m.tr.id].buyer != buyer {
      ForeignEvent(pol, w.db, ev, buyer, w.now);
    } else {
      if Committed(m.tr.state) { SpellsCommits(w.db.events, m.tr.id, m.tr.state); }
      ExposureLogs(pol, w.db, ev, buyer, w.now);
    }
  }

  lemma LastSpelled(db: Db, now: Time, m: Moving)
    requires m.Logging? && Logged(db, now, Move(m))
    ensures Spells(db.events, m.tr.id, Some(m.tr.state)) && Edge(m.tr.state, m.to)
  {
    var view := View(db.events, Move(m));
    assert Spells(view, m.tr.id, StateOf(db, m.tr.id));
    assert view[..|view| - 1] == db.events;
  }

  /** Exposure rises only to where a check has shown it within the cap, or by a dispute
      of an accepted trade. */
  lemma ExposureStep(cfg: Config, pol: Policy, w: World, f: Frame, e: Env, buyer: AgentId)
    requires FrameOk(cfg, w, f) && Ready(cfg, w.db, w.now, f, e)
    requires Logged(w.db, w.now, f) && CapFact(pol, w.db, w.now, f) && !Disputing(w.db, f, buyer)
    ensures NoWorse(pol, w.db, Advance(cfg, w.db, w.now, w.cluster, f, e).db, buyer, w.now)
  {
    RowsTouched(cfg, w.db, w.now, w.cluster, f, e);
    if f.Move? && f.moving.Logging? {
      LoggedMove(cfg, w, f, e);
      hide FrameOk, Ready, Advance, Logged, CapFact, Disputing, AdvanceMove;
      LoggingStep(cfg, pol, w, f.moving, buyer);
    } else if WritesEvent(f) || WritesTrade(f) {
      hide Logged, Exposed;
      ExposureWrites(cfg, pol, w, f, e, buyer);
    } else {
      hide FrameOk, Ready, Advance, Logged, CapFact, WritesTrade, WritesEvent, ExposureBut;
      ExposureReads(pol, w.db, Advance(cfg, w.db, w.now, w.cluster, f, e).db, buyer, w.now, None);
    }
  }

  /** A step that raises nothing leaves the buyer no more exposed. */
  lemma RaisingStep(cfg: Config, pol: Policy, w: World, f: Frame, e: Env, buyer: AgentId)
    requires FrameOk(cfg, w, f) && Ready(cfg, w.db, w.now, f, e) && Logged(w.db, w.now, f) && !Raises(w.db, f, buyer)
    ensures Exposed(pol, Advance(cfg, w.db, w.now, w.cluster, f, e).db, buyer, w.now) <= Exposed(pol, w.db, buyer, w.now)
  {
    RowsTouched(cfg, w.db, w.now, w.cluster, f, e);
    if f.Move? && f.moving.Logging? {
      LoggedMove(cfg, w, f, e);
      hide FrameOk, Ready, Advance, Logged, Raises, AdvanceMove;
      LoggingRaises(cfg, pol, w, f.moving, buyer);
    } else if WritesEvent(f) || WritesTrade(f) {
      hide Logged, Exposed;
      RaisingWrites(cfg, pol, w, f, e, buyer);
    } else {
      hide FrameOk, Ready, Advance, Logged, WritesTrade, WritesEvent, ExposureBut, Raises;
      ExposureReads(pol, w.db, Advance(cfg, w.db, w.now, w.cluster, f, e).db, buyer, w.now, None);
    }
  }

  lemma RaisingWrites(cfg: Config, pol: Policy, w: World, f: Frame, e: Env, buyer: AgentId)
    requires FrameOk(cfg, w, f) && Ready(cfg, w.db, w.now, f, e) && !Raises(w.db, f, buyer)
    requires WritesTrade(f) || (f.Open? && f.opening.CreateLog?)
    ensures Exposed(pol, Advance(cfg, w.db, w.now, w.cluster, f, e).db, buyer, w.now) <= Exposed(pol, w.db, buyer, w.now)
  {
    hide ExposureBut, ContOk, Copy, HasRequest, Proven, AcceptedBy, IsBatch, Usd;
    if f.Open? {
      var o := f.opening;
      if o.CreateLog? {
        ExposureLogs(pol, w.db, Event(o.tr.id, Some(o.actor), EventProposed, None, Proposed, o.at), buyer, w.now);
      } else if CanInsert(w.db, o.draft) {
        ExposureInserts(pol, w.db, o.draft, buyer, w.now);
      }
    } else {
      var m := f.moving;
      ExposureMoves(pol, w.db, m.tr.id, m.tr.state, m.to, m.at, buyer, w.now, None);
    }
  }

  lemma LoggedMove(cfg: Config, w: World, f: Frame, e: Env)
    requires f.Move? && f.moving.Logging? && FrameOk(cfg, w, f)
    ensures f.moving.tr.id in w.db.trades && Advance(cfg, w.db, w.now, w.cluster, f, e) == AdvanceMove(w.db, w.now, f.moving)
  {
    hide ContOk, AdvanceMove;
  }

  lemma ExposureWrites(cfg: Config, pol: Policy, w: World, f: Frame, e: Env, buyer: AgentId)
    requires FrameOk(cfg, w, f) && Ready(cfg, w.db, w.now, f, e) && CapFact(pol, w.db, w.now, f)
    requires WritesTrade(f) || (f.Open? && f.opening.CreateLog?)
    ensures NoWorse(pol, w.db, Advance(cfg, w.db, w.now, w.cluster, f, e).db, buyer, w.now)
  {
    hide ExposureBut, ContOk, Copy, HasRequest, Proven, AcceptedBy, DayCap, IsBatch, WithinCap;
    if f.Open? {
      var o := f.opening;
      if o.CreateLog? {
        ExposureLogs(pol, w.db, Event(o.tr.id, Some(o.actor), EventProposed, None, Proposed, o.at), buyer, w.now);
      } else if CanInsert(w.db, o.draft) {
        ExposureInserts(pol, w.db, o.draft, buyer, w.now);
      }
    } else {
      var m := f.moving;
      ExposureMoves(pol, w.db, m.tr.id, m.tr.state, m.to, m.at, buyer, w.now, None);
    }
  }

  // ---------------------------------------------------------------- whole runs

  ghost predicate CapInv(cfg: Config, pol: Policy, s: State)
  {
    && SeqInv(cfg, s)
    && forall c :: c in s.calls && !s.calls[c].Returned? ==> CapFact(pol, s.db, s.now, s.calls[c])
  }

  lemma CapRunStep(cfg: Config, pol: Policy, s: State, c: CallId, e: Env)
    requires Enforces(cfg, pol) && CapInv(cfg, pol, s) && Enabled(cfg, s, Run(c, e))
    ensures CapInv(cfg, pol, Next(cfg, s, Run(c, e)))
    ensures CapFact(pol, Next(cfg, s, Run(c, e)).db, s.now, Next(cfg, s, Run(c, e)).calls[c])
  {
    hide Enforces, SeqInv, CapFact, Ready, Advance, NextLock;
    SeqRun(cfg, s, c, e);
    SeqParts(cfg, s, c);
    CapStep(cfg, pol, WorldOf(s), s.calls[c], e);
    var t := Next(cfg, s, Run(c, e));
    assert forall d :: d in t.calls && d != c ==> d in s.calls && t.calls[d] == s.calls[d];
  }

  lemma SeqParts(cfg: Config, s: State, c: CallId)
    requires SeqInv(cfg, s) && c in s.calls && !s.calls[c].Returned?
    ensures WorldOk(cfg, WorldOf(s)) && FrameOk(cfg, WorldOf(s), s.calls[c]) && Fact(cfg, s.db, s.now, s.calls[c])
    ensures forall d :: d in s.calls && d != c ==> s.calls[d].Returned?
  {
    hide Inv, Fact;
    InvFrame(cfg, s, c);
  }

  lemma CapSeqStep(cfg: Config, pol: Policy, s: State, step: Step)
    requires Enforces(cfg, pol) && CapInv(cfg, pol, s) && Enabled(cfg, s, step) && (step.Invoke? ==> Idle(s))
    ensures CapInv(cfg, pol, Next(cfg, s, step))
  {
    hide Enforces, SeqInv, CapFact, Ready, Advance, NextLock;
    match step
    case Run(c, e) => CapRunStep(cfg, pol, s, c, e);
    case Invoke(c, cmd) =>
      SeqStep(cfg, s, step);
      FreeIsFact(pol, s.db, s.now, Open(Start(cmd)));
    case Tick(to) =>
      SeqStep(cfg, s, step);
      forall f | CapFact(pol, s.db, s.now, f) ensures CapFact(pol, s.db, to, f) {
        CapFactAges(pol, s.db, s.now, to, f);
      }
    case Repoint(_) => SeqStep(cfg, s, step);
  }

  lemma {:induction false} CapInvariant(cfg: Config, pol: Policy, states: seq<State>, steps: seq<Step>, i: nat)
    requires Enforces(cfg, pol) && IsSequentialRun(cfg, states, steps) && i < |states|
    ensures CapInv(cfg, pol, states[i])
  {
    hide Enforces, CapInv, Enabled, Next, Idle;
    if i == 0 {
      CapInit(cfg, pol, states[0].now, states[0].cluster);
    } else {
      CapInvariant(cfg, pol, states, steps, i - 1);
      CapSeqStep(cfg, pol, states[i - 1], steps[i - 1]);
    }
  }

  lemma CapInit(cfg: Config, pol: Policy, now: Time, cluster: Cluster)
    ensures CapInv(cfg, pol, Init(now, cluster))
  {
    SeqInit(cfg, now, cluster);
    hide SeqInv;
  }

  /** The buyer a successful create, record or build is charged to. */
  predicate CheckedReturn(f: Frame, g: Frame, trade: TradeId)
  {
    match g
    case Returned(OkTrade(tr)) => f.Open? && f.opening.CreateLog? && f.opening.tr.id == trade
    case Returned(OkReceipt(r)) => r.signature.None? && r.trade == trade
    case Returned(OkRequest(r)) => r.trade == trade
    case _ => false
  }

  /** Right after a create, a record or a build succeeds, its buyer's exposure is within
      the buyer's daily cap. */
  lemma CheckedCallsEndWithinCap(cfg: Config, pol: Policy, states: seq<State>, steps: seq<Step>, i: nat, t: TradeId)
    requires Enforces(cfg, pol) && IsSequentialRun(cfg, states, steps) && i < |steps| && steps[i].Run?
    requires Enabled(cfg, states[i], steps[i])
    requires CheckedReturn(states[i].calls[steps[i].c], Next(cfg, states[i], steps[i]).calls[steps[i].c], t)
    ensures t in states[i + 1].db.trades
    ensures Exposed(pol, states[i + 1].db, states[i + 1].db.trades[t].buyer, states[i + 1].now)
            <= DayCap(pol, states[i + 1].db.trades[t].buyer)
  {
    hide Enforces, SeqInv, Ready, Advance, NextLock, Exposed, DayCap, Covered;
    var s, c := states[i], steps[i].c;
    CapInvariant(cfg, pol, states, steps, i);
    CapRunStep(cfg, pol, s, c, steps[i].e);
    assert states[i + 1] == Next(cfg, s, steps[i]);
    if s.calls[c].Open? && s.calls[c].opening.CreateLog? {
      CreateLogged(cfg, pol, s, c, steps[i].e);
    }
  }

  lemma CreateLogged(cfg: Config, pol: Policy, s: State, c: CallId, e: Env)
    requires c in s.calls && s.calls[c].Open? && s.calls[c].opening.CreateLog? && Ready(cfg, s.db, s.now, s.calls[c], e)
    requires CapFact(pol, s.db, s.now, s.calls[c])
    ensures WithinCap(pol, Advance(cfg, s.db, s.now, s.cluster, s.calls[c], e).db, s.calls[c].opening.tr.id, s.now)
  {
    hide Exposed, DayCap, IsBatch;
    var tr := s.calls[c].opening.tr;
    var ev := Event(tr.id, Some(s.calls[c].opening.actor), EventProposed, None, Proposed, s.calls[c].opening.at);
    ExposureLogs(pol, s.db, ev, tr.buyer, s.now);
  }

  ghost predicate DisputesAccepted(s: State, step: Step, buyer: AgentId)
  {
    step.Run? && step.c in s.calls && Disputing(s.db, s.calls[step.c], buyer)
  }

  ghost predicate RaisingRun(s: State, step: Step, buyer: AgentId)
  {
    step.Run? && step.c in s.calls && Raises(s.db, s.calls[step.c], buyer)
  }

  /** Exposure rises in no step but three: inserting a created trade, logging an accepted
      trade's move to pending or recorded, and logging its dispute. */
  lemma OnlyCommitmentsRaise(cfg: Config, pol: Policy, states: seq<State>, steps: seq<Step>, i: nat, buyer: AgentId)
    requires Enforces(cfg, pol) && IsSequentialRun(cfg, states, steps) && i < |steps|
    requires !RaisingRun(states[i], steps[i], buyer)
    ensures Exposed(pol, states[i + 1].db, buyer, states[i + 1].now) <= Exposed(pol, states[i].db, buyer, states[i].now)
  {
    hide Enforces, Fact, Inv, CapFact, Raises, Ready, Advance, NextLock, ExposureBut;
    var s := states[i];
    CapInvariant(cfg, pol, states, steps, i);
    assert Enabled(cfg, s, steps[i]) && states[i + 1] == Next(cfg, s, steps[i]);
    match steps[i]
    case Run(c, e) =>
      SeqParts(cfg, s, c);
      FactLogged(cfg, s.db, s.now, s.calls[c]);
      RaisingStep(cfg, pol, WorldOf(s), s.calls[c], e, buyer);
    case Tick(to) => ExposureAges(pol, s.db, buyer, s.now, to, None);
    case _ =>
  }

  /** No other step takes a buyer's exposure above where it was, unless a check has just
      shown the result within the cap. */
  lemma OnlyDisputesExceed(cfg: Config, pol: Policy, states: seq<State>, steps: seq<Step>, i: nat, buyer: AgentId)
    requires Enforces(cfg, pol) && IsSequentialRun(cfg, states, steps) && i < |steps|
    requires !DisputesAccepted(states[i], steps[i], buyer)
    ensures var v, w := states[i], states[i + 1];
            || Exposed(pol, w.db, buyer, w.now) <= Exposed(pol, v.db, buyer, v.now)
            || Exposed(pol, w.db, buyer, w.now) <= DayCap(pol, buyer)
  {
    hide Enforces, Fact, Inv, CapFact, Disputing, Ready, Advance, NextLock, ExposureBut, DayCap;
    var s := states[i];
    CapInvariant(cfg, pol, states, steps, i);
    assert Enabled(cfg, s, steps[i]) && states[i + 1] == Next(cfg, s, steps[i]);
    match steps[i]
    case Run(c, e) =>
      SeqParts(cfg, s, c);
      FactLogged(cfg, s.db, s.now, s.calls[c]);
      ExposureStep(cfg, pol, WorldOf(s), s.calls[c], e, buyer);
    case Tick(to) => ExposureAges(pol, s.db, buyer, s.now, to, None);
    case _ =>
  }

  lemma FactLogged(cfg: Config, db: Db, now: Time, f: Frame)
    requires Fact(cfg, db, now, f)
    ensures Logged(db, now, f)
  {
    hide Logged, Solo;
  }

  /** While no accepted trade of a buyer is disputed, the buyer is within the daily cap at
      every moment of the run. */
  lemma {:induction false} CapHoldsThroughout(cfg: Config, pol: Policy, states: seq<State>, steps: seq<Step>, i: nat, buyer: AgentId)
    requires Enforces(cfg, pol) && IsSequentialRun(cfg, states, steps) && i < |states|
    requires forall j :: 0 <= j < i ==> !DisputesAccepted(states[j], steps[j], buyer)
    ensures Exposed(pol, states[i].db, buyer, states[i].now) == 0
            || Exposed(pol, states[i].db, buyer, states[i].now) <= DayCap(pol, buyer)
  {
    hide Enforces, DisputesAccepted, Enabled, Next, DayCap, Idle;
    if i > 0 {
      CapHoldsThroughout(cfg, pol, states, steps, i - 1, buyer);
      OnlyDisputesExceed(cfg, pol, states, steps, i - 1, buyer);
    }
  }
}
