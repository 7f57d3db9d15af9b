/** The reservation lock at the fine grain: creates, whose check and insert are separate
    steps, interleaved with releases and clock ticks of any number of other calls. */
module Reserving {
  import opened Pricing
  import opened Options
  import opened Domain
  import opened Tables
  import opened Protocol
  import opened Safety
  import opened Interleaving
  import opened Runs
  import opened EventLog
  import opened Spending
  import opened Exposure
  import opened Caps

  /** Calls that commit nothing: they open, agree to, or release trades. */
  predicate Tame(cmd: Command) { !cmd.Record? && !cmd.Build? && !cmd.Dispute? }

  predicate TameState(s: TradeState) { s in {Proposed, Negotiating, Accepted, Cancelled} }

  predicate TameCont(cont: Cont) { cont.Return? || cont.ThenSweep? }

  predicate TameFrame(f: Frame)
  {
    match f
    case Open(Start(cmd)) => Tame(cmd)
    case Leave(l) => l.CancelLive? || l.CancelDeadline?
    case Settle(_) => false
    case Move(Applying(_, _, to, _, cont, _)) => TameState(to) && TameCont(cont)
    case Move(Logging(_, _, to, _, cont, _)) => TameState(to) && TameCont(cont)
    case Move(Rereading(_, cont)) => TameCont(cont)
    case Stamp(_) => false
    case _ => true
  }

  predicate TameDb(db: Db)
  {
    && (forall t :: t in db.trades ==> TameState(db.trades[t].state))
    && (forall e :: e in db.events ==> TameState(e.to))
  }

  /** A call between its check and its insert has room for what it will insert. */
  ghost predicate Reserves(pol: Policy, db: Db, now: Time, f: Frame)
  {
    f.Open? && f.opening.CreateInsert? ==>
      Usd(pol, f.opening.draft) + Exposed(pol, db, f.opening.draft.buyer, now) <= DayCap(pol, f.opening.draft.buyer)
  }

  ghost predicate InCap(pol: Policy, db: Db, now: Time, buyer: AgentId)
  {
    Exposed(pol, db, buyer, now) == 0 || Exposed(pol, db, buyer, now) <= DayCap(pol, buyer)
  }

  // ---------------------------------------------------------------- one step

  lemma ApplyIsTame(tr: Trade, agent: Actor, to: TradeState, override: Option<EventType>, cont: Cont, now: Time)
    requires TameState(to) && TameCont(cont)
    ensures TameFrame(Apply(tr, agent, to, override, cont, now))
  {
  }

  lemma BegunIsTame(cfg: Config, cmd: Command, tr: Trade, now: Time)
    requires Tame(cmd) && !cmd.Create? && !cmd.SweepAccepted? && !cmd.SweepOpen? && TameState(tr.state)
    ensures TameFrame(Begun(cfg, cmd, tr, now))
  {
  }

  lemma NextIsTame(cfg: Config, db: Db, now: Time, cluster: Cluster, f: Frame, e: Env)
    requires TameDb(db) && TameFrame(f) && Ready(cfg, db, now, f, e)
    ensures TameFrame(Advance(cfg, db, now, cluster, f, e).frame)
  {
    hide Begun, IsBatch, Apply, Acceptors, Expirable, PastDeadline, HasLiveRequest;
    match f
    case Open(o) =>
      if o.Start? && !o.cmd.Create? && !o.cmd.SweepAccepted? && !o.cmd.SweepOpen? && o.cmd.id in db.trades {
        BegunIsTame(cfg, o.cmd, db.trades[o.cmd.id], now);
      }
    case Agree(a) => if a.AcceptCount? { ApplyIsTame(a.row, Some(a.actor), Accepted, None, Return, now); }
    case Leave(l) => ApplyIsTame(l.tr, Some(l.actor), Cancelled, None, Return, now);
    case Sweep(s) =>
      if s.Expiring? && s.rest != [] {
        ApplyIsTame(s.rest[0], None, Cancelled, Some(EventExpired), ThenSweep(s.rest[1..], s.cutoff), now);
      }
    case Move(m) =>
    case Returned(_) =>
  }

  lemma DbStaysTame(cfg: Config, w: World, f: Frame, e: Env)
    requires TameDb(w.db) && TameFrame(f) && FrameOk(cfg, w, f) && Ready(cfg, w.db, w.now, f, e)
    ensures TameDb(Advance(cfg, w.db, w.now, w.cluster, f, e).db)
  {
    RowsTouched(cfg, w.db, w.now, w.cluster, f, e);
    if WritesTrade(f) || WritesEvent(f) {
      hide IsBatch, Copy, ContOk, HasRequest, Proven, AcceptedBy;
      WriteStaysTame(cfg, w, f, e);
    } else {
      hide Ready, Advance, FrameOk, TameFrame, WritesTrade, WritesEvent;
    }
  }

  lemma WriteStaysTame(cfg: Config, w: World, f: Frame, e: Env)
    requires TameDb(w.db) && TameFrame(f) && FrameOk(cfg, w, f) && Ready(cfg, w.db, w.now, f, e)
    requires WritesTrade(f) || WritesEvent(f)
    ensures TameDb(Advance(cfg, w.db, w.now, w.cluster, f, e).db)
  {
    hide IsBatch, Copy, ContOk, HasRequest, Proven, AcceptedBy;
  }

  /** Nothing but an insert adds exposure. */
  lemma TameExposure(cfg: Config, pol: Policy, w: World, f: Frame, e: Env, buyer: AgentId)
    requires TameFrame(f) && FrameOk(cfg, w, f) && Ready(cfg, w.db, w.now, f, e)
    ensures var db := Advance(cfg, w.db, w.now, w.cluster, f, e).db;
            Exposed(pol, db, buyer, w.now) <= Exposed(pol, w.db, buyer, w.now)
            + (if f.Open? && f.opening.CreateInsert? && f.opening.draft.buyer == buyer then Usd(pol, f.opening.draft) else 0)
  {
    RowsTouched(cfg, w.db, w.now, w.cluster, f, e);
    if WritesTrade(f) || WritesEvent(f) {
      hide ExposureBut, Usd;
      TameWrites(cfg, pol, w, f, e, buyer);
    } else {
      hide FrameOk, Ready, Advance, TameFrame, WritesTrade, WritesEvent, ExposureBut, Usd;
      ExposureReads(pol, w.db, Advance(cfg, w.db, w.now, w.cluster, f, e).db, buyer, w.now, None);
    }
  }

  lemma TameWrites(cfg: Config, pol: Policy, w: World, f: Frame, e: Env, buyer: AgentId)
    requires TameFrame(f) && FrameOk(cfg, w, f) && Ready(cfg, w.db, w.now, f, e) && (WritesTrade(f) || WritesEvent(f))
    ensures var db := Advance(cfg, w.db, w.now, w.cluster, f, e).db;
            Exposed(pol, db, buyer, w.now) <= Exposed(pol, w.db, buyer, w.now)
            + (if f.Open? && f.opening.CreateInsert? && f.opening.draft.buyer == buyer then Usd(pol, f.opening.draft) else 0)
  {
    hide ExposureBut, ContOk, Copy, HasRequest, Proven, AcceptedBy, IsBatch, Usd;
    if f.Open? {
      var o := f.opening;
      if o.CreateLog? {
        ExposureLogs(pol, w.db, Event(o.tr.id, Some(o.actor), EventProposed, None, Proposed, o.at), buyer, w.now);
      } else if CanInsert(w.db, o.draft) {
        ExposureInserts(pol, w.db, o.draft, buyer, w.now);
      }
    } else {
      var m := f.moving;
      if m.Applying? {
        ExposureMoves(pol, w.db, m.tr.id, m.tr.state, m.to, m.at, buyer, w.now, None);
      } else {
        ExposureLogs(pol, w.db, Event(m.tr.id, m.agent, m.kind, Some(m.tr.state), m.to, m.at), buyer, w.now);
      }
    }
  }

  // ---------------------------------------------------------------- whole runs

  ghost predicate TameInv(cfg: Config, pol: Policy, s: State)
  {
    && Inv(cfg, s) && TameDb(s.db)
    && (forall c :: c in s.calls ==> TameFrame(s.calls[c]) && Reserves(pol, s.db, s.now, s.calls[c]))
    && (forall b :: InCap(pol, s.db, s.now, b))
  }

  /** A passed check reserves room; the lock keeps it until the insert. */
  lemma NextReserves(cfg: Config, pol: Policy, w: World, f: Frame, e: Env)
    requires Enforces(cfg, pol) && Ready(cfg, w.db, w.now, f, e) && TameFrame(f) && !f.Returned?
    ensures var r := Advance(cfg, w.db, w.now, w.cluster, f, e); Reserves(pol, r.db, w.now, r.frame)
  {
    if f.Open? {
      OpenReserves(cfg, pol, w, f.opening, e);
    } else {
      hide Ready, Advance, Enforces, TameFrame;
      NeverOpens(cfg, w.db, w.now, w.cluster, f, e);
    }
  }

  lemma OpenReserves(cfg: Config, pol: Policy, w: World, o: Opening, e: Env)
    requires Enforces(cfg, pol) && OpenReady(cfg, w.db, w.now, o, e)
    ensures var r := AdvanceOpen(cfg, w.db, w.now, o, e); Reserves(pol, r.db, w.now, r.frame)
  {
    hide ExposureBut, Effective, PriceOf, IsBatch, Begun;
    if o.CreateCheck? {
      if cfg.admits(w.db, o.draft, None, w.now) { assert Admits(pol, w.db, o.draft, None, w.now); }
    } else {
      hide Exposed, DayCap, Usd;
      BegunHoldsNothing(cfg, w.db, w.now, o);
    }
  }

  /** The step of one call keeps every other call's reservation: while one stands, the
      lock keeps every other insert out. */
  lemma OthersReserve(cfg: Config, pol: Policy, s: State, c: CallId, e: Env, d: CallId)
    requires cfg.capped && TameInv(cfg, pol, s) && Enabled(cfg, s, Run(c, e)) && d in s.calls && d != c
    ensures Reserves(pol, Advance(cfg, s.db, s.now, s.cluster, s.calls[c], e).db, s.now, s.calls[d])
  {
    hide WorldOk, FrameOk, TameDb, TameFrame, Exposed, DayCap, Usd, InCap, Ready, Advance;
    var g := s.calls[d];
    if g.Open? && g.opening.CreateInsert? {
      assert Holds(g);
      assert s.lock == Some(d);
      assert !Holds(s.calls[c]);
      TameExposure(cfg, pol, WorldOf(s), s.calls[c], e, g.opening.draft.buyer);
    }
  }

  lemma StaysInCap(cfg: Config, pol: Policy, s: State, c: CallId, e: Env, buyer: AgentId)
    requires TameInv(cfg, pol, s) && Enabled(cfg, s, Run(c, e))
    ensures InCap(pol, Advance(cfg, s.db, s.now, s.cluster, s.calls[c], e).db, s.now, buyer)
  {
    hide WorldOk, FrameOk, TameDb, TameFrame, Exposed, DayCap, Usd, Ready, Advance, LockOk;
    assert InCap(pol, s.db, s.now, buyer);
    assert Reserves(pol, s.db, s.now, s.calls[c]);
    TameExposure(cfg, pol, WorldOf(s), s.calls[c], e, buyer);
  }

  lemma TameRun(cfg: Config, pol: Policy, s: State, c: CallId, e: Env)
    requires Enforces(cfg, pol) && TameInv(cfg, pol, s) && Enabled(cfg, s, Run(c, e))
    ensures TameInv(cfg, pol, Next(cfg, s, Run(c, e)))
  {
    hide Enforces, Inv, TameDb, TameFrame, Ready, Advance, NextLock, Reserves, InCap;
    StepKeeps(cfg, s, Run(c, e));
    InvCall(cfg, s, c);
    NextIsTame(cfg, s.db, s.now, s.cluster, s.calls[c], e);
    DbStaysTame(cfg, WorldOf(s), s.calls[c], e);
    NextReserves(cfg, pol, WorldOf(s), s.calls[c], e);
    Capped(cfg, pol);
    var t := Next(cfg, s, Run(c, e));
    forall d | d in t.calls ensures TameFrame(t.calls[d]) && Reserves(pol, t.db, t.now, t.calls[d]) {
      if d != c { OthersReserve(cfg, pol, s, c, e, d); }
    }
    forall b ensures InCap(pol, t.db, t.now, b) {
      StaysInCap(cfg, pol, s, c, e, b);
    }
  }

  lemma Capped(cfg: Config, pol: Policy)
    requires Enforces(cfg, pol)
    ensures cfg.capped
  {
  }

  lemma InvCall(cfg: Config, s: State, c: CallId)
    requires Inv(cfg, s) && c in s.calls
    ensures FrameOk(cfg, WorldOf(s), s.calls[c])
  {
    hide DbOk, FrameOk, LockOk;
  }

  lemma TameTick(cfg: Config, pol: Policy, s: State, to: Time)
    requires TameInv(cfg, pol, s) && s.now <= to
    ensures TameInv(cfg, pol, s.(now := to))
  {
    hide Inv, TameDb, TameFrame, ExposureBut, DayCap, Usd;
    StepKeeps(cfg, s, Tick(to));
    forall b ensures Exposed(pol, s.db, b, to) <= Exposed(pol, s.db, b, s.now) && InCap(pol, s.db, to, b) {
      ExposureAges(pol, s.db, b, s.now, to, None);
      assert InCap(pol, s.db, s.now, b);
    }
    hide Exposed;
  }

  lemma TameStep(cfg: Config, pol: Policy, s: State, step: Step)
    requires Enforces(cfg, pol) && TameInv(cfg, pol, s) && Enabled(cfg, s, step) && (step.Invoke? ==> Tame(step.cmd))
    ensures TameInv(cfg, pol, Next(cfg, s, step))
  {
    hide Enforces, Inv, TameDb, Ready, Advance, NextLock, InCap, Tame, Exposed;
    match step
    case Run(c, e) => TameRun(cfg, pol, s, c, e);
    case Tick(to) => TameTick(cfg, pol, s, to);
    case Invoke(c, cmd) => StepKeeps(cfg, s, step);
    case Repoint(_) => StepKeeps(cfg, s, step);
  }

  /** However creates, agreements, releases and ticks interleave, every buyer stays within
      the daily cap at every moment. */
  lemma {:induction false} CreatesStayWithinCap(cfg: Config, pol: Policy, states: seq<State>, steps: seq<Step>, i: nat, buyer: AgentId)
    requires Enforces(cfg, pol) && IsRun(cfg, states, steps) && i < |states|
    requires forall j :: 0 <= j < |steps| && steps[j].Invoke? ==> Tame(steps[j].cmd)
    ensures Exposed(pol, states[i].db, buyer, states[i].now) == 0
            || Exposed(pol, states[i].db, buyer, states[i].now) <= DayCap(pol, buyer)
  {
    hide Enforces, Enabled, Next, Exposed, DayCap, Inv, TameDb, Tame;
    TameInvariant(cfg, pol, states, steps, i);
    assert InCap(pol, states[i].db, states[i].now, buyer);
  }

  lemma {:induction false} TameInvariant(cfg: Config, pol: Policy, states: seq<State>, steps: seq<Step>, i: nat)
    requires Enforces(cfg, pol) && IsRun(cfg, states, steps) && i < |states|
    requires forall j :: 0 <= j < |steps| && steps[j].Invoke? ==> Tame(steps[j].cmd)
    ensures TameInv(cfg, pol, states[i])
  {
    hide Enforces, TameInv, Enabled, Next, Tame;
    if i == 0 {
      TameInit(cfg, pol, states[0].now, states[0].cluster);
    } else {
      TameInvariant(cfg, pol, states, steps, i - 1);
      TameStep(cfg, pol, states[i - 1], steps[i - 1]);
    }
  }

  lemma TameInit(cfg: Config, pol: Policy, now: Time, cluster: Cluster)
    ensures TameInv(cfg, pol, Init(now, cluster))
  {
    InitOk(cfg, now, cluster);
    hide Inv;
    assert EMPTY.trades.Keys == {};
  }
}
