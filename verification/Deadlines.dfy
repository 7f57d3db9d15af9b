/** What binds the parties of a trade however calls interleave: an acceptance until its
    term is over, an open trade until it has been left alone for its own, and nobody who is
    not a party. */
module Deadlines {
  import opened Options
  import opened Domain
  import opened Tables
  import opened Protocol
  import opened Safety
  import opened Transactions
  import opened Interleaving
  import opened Runs
  import opened EventLog
  import opened FineGrain
  import opened Outcomes

  // ---------------------------------------------------------------- what a call in flight carries

  /** Read this long ago or longer, an open trade may be swept. */
  predicate OldEnough(cfg: Config, cutoff: Time, now: Time) { cfg.openTtl > 0 && cutoff + cfg.openTtl <= now }

  predicate SweptFrom(cfg: Config, cutoff: Option<Time>, now: Time) { cutoff.Some? ==> OldEnough(cfg, cutoff.value, now) }

  predicate ByParty(tr: Trade, agent: Actor) { agent.Some? ==> IsParty(tr, agent.value) }

  /** A cancellation in flight has its reason. */
  ghost predicate HasReason(cfg: Config, db: Db, now: Time, tr: Trade, agent: Actor)
  {
    && (tr.state == Accepted ==> Lapsed(cfg, db, tr.id, now))
    && (tr.state in {Proposed, Negotiating} && agent.None? ==> OldEnough(cfg, tr.updatedAt, now))
  }

  ghost predicate Bound(cfg: Config, db: Db, now: Time, f: Frame)
  {
    match f
    case Open(CreateLock(tr, actor)) => IsParty(tr, actor)
    case Open(CreateCheck(tr, actor)) => IsParty(tr, actor)
    case Open(CreateInsert(tr, actor)) => IsParty(tr, actor)
    case Open(CreateLog(tr, actor, _)) => IsParty(tr, actor)
    case Agree(AcceptInsert(tr, actor, _)) => IsParty(tr, actor)
    case Agree(AcceptRow(id, actor)) => id in db.trades && IsParty(db.trades[id], actor)
    case Agree(AcceptCount(row, actor)) => IsParty(row, actor)
    case Leave(l) => IsParty(l.tr, l.actor)
    case Sweep(Loading(_, _, cutoff)) => SweptFrom(cfg, cutoff, now)
    case Sweep(Expiring(_, cutoff)) => SweptFrom(cfg, cutoff, now)
    case Move(Applying(tr, agent, to, _, cont, _)) =>
      ByParty(tr, agent) && (to == Cancelled ==> HasReason(cfg, db, now, tr, agent)) && ContBound(cfg, cont, now)
    case Move(Logging(tr, agent, _, _, cont, _)) =>
      tr.id in db.trades && ByParty(db.trades[tr.id], agent) && ContBound(cfg, cont, now)
    case Move(Rereading(_, cont)) => ContBound(cfg, cont, now)
    case _ => true
  }

  predicate ContBound(cfg: Config, cont: Cont, now: Time) { cont.ThenSweep? ==> SweptFrom(cfg, cont.cutoff, now) }

  lemma LapsedStays(cfg: Config, v: Db, w: Db, t: TradeId, now: Time, to: Time)
    requires Lapsed(cfg, v, t, now) && now <= to
    requires forall k :: k in v.acceptances ==> k in w.acceptances && w.acceptances[k] == v.acceptances[k]
    ensures Lapsed(cfg, w, t, to)
  {
    var a :| (t, a) in v.acceptances && v.acceptances[(t, a)] + cfg.acceptTtl <= now;
    assert (t, a) in w.acceptances && w.acceptances[(t, a)] + cfg.acceptTtl <= to;
  }

  lemma BoundStable(cfg: Config, v: Db, w: Db, now: Time, to: Time, f: Frame)
    requires Bound(cfg, v, now, f) && Grows(v, w) && now <= to
    ensures Bound(cfg, w, to, f)
  {
    hide RequestsGrow, Lapsed;
    if f.Move? && f.moving.Applying? && f.moving.to == Cancelled && f.moving.tr.state == Accepted {
      LapsedStays(cfg, v, w, f.moving.tr.id, now, to);
    }
    if f.Agree? && f.agreeing.AcceptRow? {
      assert RowGrows(v.trades[f.agreeing.id], w.trades[f.agreeing.id]);
    }
    if f.Move? && f.moving.Logging? { assert RowGrows(v.trades[f.moving.tr.id], w.trades[f.moving.tr.id]); }
  }

  // ---------------------------------------------------------------- one step of a call

  lemma ApplyBound(cfg: Config, db: Db, now: Time, tr: Trade, agent: Actor, to: TradeState, override: Option<EventType>, cont: Cont)
    requires ByParty(tr, agent) && ContBound(cfg, cont, now) && (to == Cancelled ==> HasReason(cfg, db, now, tr, agent))
    ensures Bound(cfg, db, now, Apply(tr, agent, to, override, cont, now))
  {
    hide HasReason;
  }

  lemma BegunBound(cfg: Config, db: Db, now: Time, cmd: Command, tr: Trade)
    requires !cmd.Create? && !cmd.SweepAccepted? && !cmd.SweepOpen?
    ensures Bound(cfg, db, now, Begun(cfg, cmd, tr, now))
  {
    hide HasReason;
  }

  lemma JudgeBound(cfg: Config, db: Db, now: Time, tr: Trade, sig: Signature, list: map<RequestId, Request>, found: Option<RequestId>,
                   cluster: Cluster, tx: Transaction, failed: bool, termsOk: bool)
    ensures Bound(cfg, db, now, Judge(cfg, tr, sig, list, found, cluster, tx, failed, termsOk, now))
  {
    hide Apply, ClusterOk, HasReason;
    ApplyBound(cfg, db, now, tr, Some(tr.buyer), Disputed, None, Refuse);
    ApplyBound(cfg, db, now, tr, Some(tr.buyer), Settled, None, ThenLedger(Some(sig)));
  }

  lemma SettleBound(cfg: Config, w: World, s: Settling, e: Env)
    requires SettleReady(w.db, s, e) && s.tr.state == SettlementPending
    ensures var r := AdvanceSettle(cfg, w.db, w.now, w.cluster, s, e); Bound(cfg, r.db, w.now, r.frame)
  {
    hide Apply, Judge, SettleReady, ClusterOk, AnySigned;
    var db := AdvanceSettle(cfg, w.db, w.now, w.cluster, s, e).db;
    ApplyBound(cfg, db, w.now, s.tr, None, Cancelled, Some(EventExpired), Return);
    if s.Confirming? || s.Superseding? { ApplyBound(cfg, db, w.now, s.tr, Some(s.tr.buyer), Settled, None, ThenLedger(Some(s.sig))); }
    if (s.Fetching? || s.Refetching?) && e.answer.Landed? {
      var found := if s.Fetching? then s.found else Some(s.cur);
      JudgeBound(cfg, db, w.now, s.tr, s.sig, s.list, found, w.cluster, e.answer.tx, e.answer.failed, e.ok);
    }
  }

  /** A deadline seen to have passed is in the acceptances. */
  lemma PastIsLapsed(cfg: Config, db: Db, tr: Trade, now: Time)
    requires PastDeadline(cfg, db, tr, now)
    ensures tr.state == Accepted && Lapsed(cfg, db, tr.id, now)
  {
    var b, s := (tr.id, tr.buyer), (tr.id, tr.seller);
    var a := if b in db.acceptances && db.acceptances[b] == FirstAcceptance(db, tr).value then tr.buyer else tr.seller;
    assert (tr.id, a) in db.acceptances && db.acceptances[(tr.id, a)] + cfg.acceptTtl <= now;
  }

  lemma LeaveBound(cfg: Config, w: World, l: Leaving, e: Env)
    requires LeaveReady(w.db, l, e) && IsParty(l.tr, l.actor)
    ensures var r := AdvanceLeave(cfg, w.db, w.now, w.cluster, l, e); Bound(cfg, r.db, w.now, r.frame)
  {
    hide Apply, PastDeadline, HasLiveRequest, Lapsed;
    var db := AdvanceLeave(cfg, w.db, w.now, w.cluster, l, e).db;
    if PastDeadline(cfg, w.db, l.tr, w.now) { PastIsLapsed(cfg, w.db, l.tr, w.now); }
    if (l.CancelLive? && l.tr.state != Accepted) || (l.CancelDeadline? && PastDeadline(cfg, w.db, l.tr, w.now)) {
      ApplyBound(cfg, db, w.now, l.tr, Some(l.actor), Cancelled, None, Return);
    }
    ApplyBound(cfg, db, w.now, l.tr, Some(l.actor), Recorded, None, ThenLedger(None));
    if l.Building? {
      ApplyBound(cfg, db, w.now, l.tr, Some(l.actor), SettlementPending, None, ThenRequest(NewRequest(l.tr, w.cluster, l.at, e)));
    }
  }

  lemma SweepBound(cfg: Config, w: World, s: Sweeping)
    requires SweptFrom(cfg, s.cutoff, w.now)
    ensures var r := AdvanceSweep(cfg, w.db, w.now, s); Bound(cfg, r.db, w.now, r.frame)
  {
    hide Apply, PastDeadline, Lapsed;
    if s.Expiring? && s.rest != [] && Expirable(cfg, w.db, s.rest[0], s.cutoff, w.now) {
      if s.cutoff.None? { PastIsLapsed(cfg, w.db, s.rest[0], w.now); }
      ApplyBound(cfg, w.db, w.now, s.rest[0], None, Cancelled, Some(EventExpired), ThenSweep(s.rest[1..], s.cutoff));
    }
  }

  lemma OpenBound(cfg: Config, w: World, o: Opening, e: Env)
    requires OpenReady(cfg, w.db, w.now, o, e) && Bound(cfg, w.db, w.now, Open(o))
    ensures var r := AdvanceOpen(cfg, w.db, w.now, o, e); Bound(cfg, r.db, w.now, r.frame)
  {
    hide Begun, IsBatch, HasReason;
    if o.Start? && !o.cmd.Create? && !o.cmd.SweepAccepted? && !o.cmd.SweepOpen? && o.cmd.id in w.db.trades {
      BegunBound(cfg, w.db, w.now, o.cmd, w.db.trades[o.cmd.id]);
      hide Bound;
    }
  }

  lemma StepBound(cfg: Config, w: World, f: Frame, e: Env)
    requires WorldOk(cfg, w) && FrameOk(cfg, w, f) && Ready(cfg, w.db, w.now, f, e) && Bound(cfg, w.db, w.now, f)
    ensures var r := Advance(cfg, w.db, w.now, w.cluster, f, e); Bound(cfg, r.db, w.now, r.frame)
  {
    hide DbOk, AppendOutcome, Acceptors, LeaveReady, SettleReady, OpenReady, AdvanceLeave, AdvanceSettle, AdvanceOpen, AdvanceSweep,
         Apply, HasReason, Lapsed;
    match f
    case Open(o) => hide FrameOk; OpenBound(cfg, w, o, e);
    case Agree(a) =>
      hide Copy;
      if a.AcceptCount? { ApplyBound(cfg, w.db, w.now, a.row, Some(a.actor), Accepted, None, Return); }
      if a.AcceptInsert? { CopyParties(w.db, a.tr); }
    case Leave(l) => hide FrameOk; LeaveBound(cfg, w, l, e);
    case Settle(s) => PendingIs(cfg, w, s); hide FrameOk, Bound; SettleBound(cfg, w, s, e);
    case Sweep(s) => hide FrameOk; SweepBound(cfg, w, s);
    case Move(m) =>
      hide ContOk, Copy, HasRequest, Proven, AcceptedBy;
      if m.Applying? { CopyParties(w.db, m.tr); }
    case Stamp(p) => hide FrameOk;
    case Returned(_) =>
  }

  lemma CopyParties(db: Db, tr: Trade)
    requires Copy(db, tr)
    ensures tr.id in db.trades && db.trades[tr.id].buyer == tr.buyer && db.trades[tr.id].seller == tr.seller
  {
  }

  lemma PendingIs(cfg: Config, w: World, s: Settling)
    requires SettleOk(cfg, w, s)
    ensures s.tr.state == SettlementPending
  {
  }

  // ---------------------------------------------------------------- whole runs

  /** Every event is some trade's, and whoever it names is that trade's party. */
  ghost predicate ActorsOk(db: Db)
  {
    forall e :: e in db.events ==> e.trade in db.trades && ByParty(db.trades[e.trade], e.actor)
  }

  ghost predicate BoundInv(cfg: Config, s: State)
  {
    (forall c :: c in s.calls ==> Bound(cfg, s.db, s.now, s.calls[c])) && ActorsOk(s.db)
  }

  lemma ActorsGrow(v: Db, w: Db)
    requires ActorsOk(v) && Grows(v, w) && w.events == v.events
    ensures ActorsOk(w)
  {
    hide RequestsGrow;
    forall e | e in w.events ensures e.trade in w.trades && ByParty(w.trades[e.trade], e.actor) {
      assert RowGrows(v.trades[e.trade], w.trades[e.trade]);
    }
  }

  lemma LoggedActor(cfg: Config, w: World, f: Frame, e: Env)
    requires FrameOk(cfg, w, f) && Ready(cfg, w.db, w.now, f, e) && Bound(cfg, w.db, w.now, f) && WritesEvent(f) && ActorsOk(w.db)
    ensures ActorsOk(Advance(cfg, w.db, w.now, w.cluster, f, e).db)
  {
    hide IsBatch, ContOk, HasReason, Copy;
    if f.Open? { CopyParties(w.db, f.opening.tr); }
    var db := Advance(cfg, w.db, w.now, w.cluster, f, e).db;
    var last := db.events[|db.events| - 1];
    assert db.events == w.db.events + [last] && db.trades == w.db.trades;
  }

  lemma StepActors(cfg: Config, w: World, f: Frame, e: Env)
    requires FrameOk(cfg, w, f) && Ready(cfg, w.db, w.now, f, e) && Bound(cfg, w.db, w.now, f) && ActorsOk(w.db)
    requires Grows(w.db, Advance(cfg, w.db, w.now, w.cluster, f, e).db)
    ensures ActorsOk(Advance(cfg, w.db, w.now, w.cluster, f, e).db)
  {
    if WritesEvent(f) {
      LoggedActor(cfg, w, f, e);
    } else {
      RowsTouched(cfg, w.db, w.now, w.cluster, f, e);
      hide Ready, Advance, FrameOk, Bound, Grows, ActorsOk, WritesTrade;
      ActorsGrow(w.db, Advance(cfg, w.db, w.now, w.cluster, f, e).db);
    }
  }

  lemma BoundRun(cfg: Config, s: State, c: CallId, e: Env)
    requires Inv(cfg, s) && BoundInv(cfg, s) && Enabled(cfg, s, Run(c, e))
    ensures BoundInv(cfg, Next(cfg, s, Run(c, e)))
  {
    hide WorldOk, FrameOk, LockOk, Ready, Advance, NextLock, Bound, ActorsOk, Grows;
    StepKeeps(cfg, s, Run(c, e));
    var t := Next(cfg, s, Run(c, e));
    assert FrameOk(cfg, WorldOf(s), s.calls[c]);
    StepBound(cfg, WorldOf(s), s.calls[c], e);
    StepActors(cfg, WorldOf(s), s.calls[c], e);
    forall d | d in t.calls ensures Bound(cfg, t.db, t.now, t.calls[d]) {
      if d != c { BoundStable(cfg, s.db, t.db, s.now, t.now, s.calls[d]); }
    }
  }

  lemma StartIsBound(cfg: Config, db: Db, now: Time, cmd: Command)
    ensures Bound(cfg, db, now, Open(Start(cmd)))
  {
  }

  lemma BoundStep(cfg: Config, s: State, step: Step)
    requires Inv(cfg, s) && BoundInv(cfg, s) && Enabled(cfg, s, step)
    ensures BoundInv(cfg, Next(cfg, s, step))
  {
    hide Inv, Ready, Advance, NextLock, Bound, ActorsOk, Grows;
    match step
    case Run(c, e) => BoundRun(cfg, s, c, e);
    case Invoke(c, cmd) => StartIsBound(cfg, s.db, s.now, cmd);
    case Tick(to) =>
      GrowsRefl(s.db);
      forall c | c in s.calls ensures Bound(cfg, s.db, to, s.calls[c]) {
        BoundStable(cfg, s.db, s.db, s.now, to, s.calls[c]);
      }
    case Repoint(_) =>
  }

  lemma {:induction false} BoundInvariant(cfg: Config, states: seq<State>, steps: seq<Step>, i: nat)
    requires IsRun(cfg, states, steps) && i < |states|
    ensures BoundInv(cfg, states[i])
  {
    hide Inv, BoundInv, Enabled, Next;
    if i == 0 {
      StartsBound(cfg, states[0].now, states[0].cluster);
    } else {
      BoundInvariant(cfg, states, steps, i - 1);
      Invariant(cfg, states, steps, i - 1);
      BoundStep(cfg, states[i - 1], steps[i - 1]);
    }
  }

  lemma StartsBound(cfg: Config, now: Time, cluster: Cluster)
    ensures BoundInv(cfg, Init(now, cluster))
  {
  }

  // ---------------------------------------------------------------- what follows

  /** The step moves this trade out of one state and into "cancelled". */
  predicate Cancels(s: State, n: State, t: TradeId, from: TradeState)
  {
    t in s.db.trades && s.db.trades[t].state == from && t in n.db.trades && n.db.trades[t].state == Cancelled
  }

  /** A compare-and-set that cancels was pending, on the row it finds. */
  lemma CancelledBy(cfg: Config, s: State, step: Step, t: TradeId, from: TradeState)
    requires Inv(cfg, s) && Enabled(cfg, s, step) && Cancels(s, Next(cfg, s, step), t, from) && from != Cancelled
    ensures step.Run? && step.c in s.calls
    ensures var f := s.calls[step.c];
            f.Move? && f.moving.Applying? && f.moving.to == Cancelled && f.moving.tr == s.db.trades[t] && f.moving.tr.id == t
  {
    if step.Run? {
      assert FrameOk(cfg, WorldOf(s), s.calls[step.c]);
      InvRow(cfg, s, t);
      hide Inv, NextLock;
      CasCancels(cfg, WorldOf(s), s.calls[step.c], step.e, t);
    } else {
      hide Inv;
    }
  }

  lemma InvRow(cfg: Config, s: State, t: TradeId)
    requires Inv(cfg, s) && t in s.db.trades
    ensures s.db.trades[t].id == t
  {
    hide AcceptancesOk, RequestsOk, SettlementOk, ChainOk, LedgerOk, ReceiptsOk, FramesOk, LockOk;
  }

  lemma CasCancels(cfg: Config, w: World, f: Frame, e: Env, t: TradeId)
    requires FrameOk(cfg, w, f) && Ready(cfg, w.db, w.now, f, e) && t in w.db.trades
    requires w.db.trades[t].state != Cancelled
    requires var db := Advance(cfg, w.db, w.now, w.cluster, f, e).db; t in db.trades && db.trades[t].state == Cancelled
    ensures f.Move? && f.moving.Applying? && f.moving.to == Cancelled && f.moving.tr == w.db.trades[t] && f.moving.tr.id == t
  {
    RowsTouched(cfg, w.db, w.now, w.cluster, f, e);
    if WritesTrade(f) {
      hide ContOk, HasRequest, Proven, AcceptedBy;
    } else {
      hide Ready, Advance, FrameOk;
    }
  }

  /** However calls interleave, an accepted trade is cancelled only where a term is
      configured and an acceptance of it, stored by then, is at least that old. */
  lemma AcceptanceBinds(cfg: Config, states: seq<State>, steps: seq<Step>, i: nat, t: TradeId)
    requires IsRun(cfg, states, steps) && i < |steps| && Cancels(states[i], states[i + 1], t, Accepted)
    ensures cfg.acceptTtl > 0
    ensures exists a :: (t, a) in states[i].db.acceptances && states[i].db.acceptances[(t, a)] + cfg.acceptTtl <= states[i].now
  {
    hide Inv, Enabled, Next;
    Invariant(cfg, states, steps, i);
    BoundInvariant(cfg, states, steps, i);
    CancelledBy(cfg, states[i], steps[i], t, Accepted);
    var s, c := states[i], steps[i].c;
    assert Bound(cfg, s.db, s.now, s.calls[c]);
  }

  /** A step that cancels an open trade in nobody's name finds it untouched for the open
      term. */
  lemma OpenTradesLast(cfg: Config, states: seq<State>, steps: seq<Step>, i: nat, t: TradeId, from: TradeState)
    requires IsRun(cfg, states, steps) && i < |steps| && Cancels(states[i], states[i + 1], t, from) && from in {Proposed, Negotiating}
    ensures steps[i].Run? && steps[i].c in states[i].calls && states[i].calls[steps[i].c].Move? && states[i].calls[steps[i].c].moving.Applying?
    ensures var m := states[i].calls[steps[i].c].moving;
            if m.agent.Some? then m.agent.value in {states[i].db.trades[t].buyer, states[i].db.trades[t].seller}
            else cfg.openTtl > 0 && states[i].db.trades[t].updatedAt + cfg.openTtl <= states[i].now
  {
    hide Inv, Enabled, Next;
    Invariant(cfg, states, steps, i);
    BoundInvariant(cfg, states, steps, i);
    CancelledBy(cfg, states[i], steps[i], t, from);
    var s, c := states[i], steps[i].c;
    assert Bound(cfg, s.db, s.now, s.calls[c]);
  }

  /** Whoever an event names is the buyer or the seller of the trade it is about. */
  lemma OnlyPartiesAct(cfg: Config, s: State, e: Event)
    requires Reachable(cfg, s) && e in s.db.events && e.actor.Some?
    ensures e.trade in s.db.trades && e.actor.value in {s.db.trades[e.trade].buyer, s.db.trades[e.trade].seller}
  {
    hide Bound;
    var states, steps :| IsRun(cfg, states, steps) && s == states[|states| - 1];
    BoundInvariant(cfg, states, steps, |states| - 1);
  }
}
