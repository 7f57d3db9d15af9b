/** The accepted sweep makes progress, whatever agents do meanwhile: every full pass takes
    a whole batch off the queue of accepted trades in front of an expired one. */
module SweepProgress {
  import opened Options
  import opened Domain
  import opened Tables
  import opened Protocol
  import opened Safety
  import opened Transactions
  import opened Interleaving
  import opened Runs
  import opened EventLog
  import opened FineGrain

  // ---------------------------------------------------------------- the queue

  /** Accepted trades no later than a given update time. */
  function Queue(db: Db, until: Time): set<TradeId>
  {
    set t | t in db.trades && db.trades[t].state == Accepted && db.trades[t].updatedAt <= until
  }

  predicate Enters(f: Frame, until: Time)
  {
    f.Move? && f.moving.Applying? && f.moving.to == Accepted && f.moving.at <= until
  }

  /** Acceptances already stamped and still to be written, which may yet join the queue. */
  function Entering(calls: map<CallId, Frame>, until: Time): set<CallId>
  {
    set c | c in calls && Enters(calls[c], until)
  }

  /** How many accepted trades are, or can still come to be, ordered up to a time, some
      left out. */
  function AheadBut(s: State, until: Time, but: set<TradeId>): nat
  {
    |Queue(s.db, until) - but| + |Entering(s.calls, until)|
  }

  function Ahead(s: State, until: Time): nat { AheadBut(s, until, {}) }

  /** An accepted trade's acceptances are no later than its update, so once the clock is a
      full term past a trade's update everything ordered before it is expired too. */
  lemma OrderedBeforeIsExpired(cfg: Config, s: State, t: TradeId, u: TradeId)
    requires Inv(cfg, s) && cfg.acceptTtl > 0 && t in s.db.trades && u in s.db.trades
    requires s.db.trades[t].updatedAt + cfg.acceptTtl <= s.now
    requires s.db.trades[u].state == Accepted && s.db.trades[u].updatedAt <= s.db.trades[t].updatedAt
    ensures PastDeadline(cfg, s.db, s.db.trades[u], s.now)
  {
    hide FramesOk, LockOk, TradesOk, RequestsOk, SettlementOk, ChainOk, LedgerOk, ReceiptsOk;
    AcceptedIsExpired(cfg, s.db, u, s.db.trades[t].updatedAt, s.now);
  }

  lemma AcceptedIsExpired(cfg: Config, db: Db, u: TradeId, until: Time, now: Time)
    requires AcceptancesOk(db, now) && cfg.acceptTtl > 0 && u in db.trades && until + cfg.acceptTtl <= now
    requires db.trades[u].state == Accepted && db.trades[u].updatedAt <= until
    ensures PastDeadline(cfg, db, db.trades[u], now)
  {
    assert AcceptedBy(db, db.trades[u], db.trades[u].updatedAt);
  }

  // ---------------------------------------------------------------- the queue only drains

  predicate StampedNow(f: Frame, now: Time) { f.Move? && f.moving.Applying? ==> f.moving.at == now }

  lemma BegunStamped(cfg: Config, cmd: Command, tr: Trade, now: Time)
    requires !cmd.Create? && !cmd.SweepAccepted? && !cmd.SweepOpen?
    ensures StampedNow(Begun(cfg, cmd, tr, now), now)
  {
  }

  lemma SettleStamped(cfg: Config, db: Db, now: Time, cluster: Cluster, s: Settling, e: Env)
    requires SettleReady(db, s, e)
    ensures StampedNow(AdvanceSettle(cfg, db, now, cluster, s, e).frame, now)
  {
    hide SettleReady, ClusterOk, AnySigned;
  }

  /** A state change is stamped when its call reaches it. */
  lemma NextStamped(cfg: Config, db: Db, now: Time, cluster: Cluster, f: Frame, e: Env)
    requires Ready(cfg, db, now, f, e) && !f.Returned?
    ensures StampedNow(Advance(cfg, db, now, cluster, f, e).frame, now)
  {
    hide Begun, IsBatch, Acceptors, Expirable, PastDeadline, HasLiveRequest, AppendOutcome, Judge;
    match f
    case Open(o) =>
      if o.Start? && !o.cmd.Create? && !o.cmd.SweepAccepted? && !o.cmd.SweepOpen? && o.cmd.id in db.trades {
        BegunStamped(cfg, o.cmd, db.trades[o.cmd.id], now);
      }
    case Settle(s) => hide OpenReady; SettleStamped(cfg, db, now, cluster, s, e);
    case _ =>
  }

  /** A row newly in the queue was put there by an acceptance stamped in time. */
  lemma NewInQueue(cfg: Config, w: World, f: Frame, e: Env, until: Time, t: TradeId)
    requires FrameOk(cfg, w, f) && Ready(cfg, w.db, w.now, f, e)
    requires t in Queue(Advance(cfg, w.db, w.now, w.cluster, f, e).db, until) && t !in Queue(w.db, until)
    ensures Enters(f, until) && t == f.moving.tr.id
  {
    RowsTouched(cfg, w.db, w.now, w.cluster, f, e);
    if WritesTrade(f) {
      hide ContOk, Copy, HasRequest, Proven, AcceptedBy, IsBatch;
    } else {
      hide Ready, Advance, FrameOk;
    }
  }

  lemma QueueSizes(v: set<TradeId>, w: set<TradeId>, but: set<TradeId>, x: Option<TradeId>)
    requires forall t :: t in w && t !in v ==> x == Some(t)
    ensures |w - but| <= |v - but| + (if x.Some? then 1 else 0)
  {
    var extra := if x.Some? then {x.value} else {};
    assert w - but <= (v - but) + extra;
    SubsetSize(w - but, (v - but) + extra);
  }

  /** Once the clock is past the time, nothing new can be ordered up to it. */
  lemma AheadDrains(cfg: Config, s: State, step: Step, until: Time, but: set<TradeId>)
    requires Inv(cfg, s) && Enabled(cfg, s, step) && until < s.now
    ensures AheadBut(Next(cfg, s, step), until, but) <= AheadBut(s, until, but)
  {
    hide Inv, Ready, Advance, NextLock, Queue, Enters;
    var t := Next(cfg, s, step);
    match step
    case Invoke(c, cmd) => FreshEntering(s, c, cmd, until);
    case Run(c, e) => RunDrains(cfg, s, c, e, until, but);
    case Tick(_) =>
    case Repoint(_) =>
  }

  lemma FreshEntering(s: State, c: CallId, cmd: Command, until: Time)
    requires c !in s.calls
    ensures Entering(s.calls[c := Open(Start(cmd))], until) == Entering(s.calls, until)
  {
  }

  lemma RunDrains(cfg: Config, s: State, c: CallId, e: Env, until: Time, but: set<TradeId>)
    requires Inv(cfg, s) && Enabled(cfg, s, Run(c, e)) && until < s.now
    ensures AheadBut(Next(cfg, s, Run(c, e)), until, but) <= AheadBut(s, until, but)
  {
    hide Ready, Advance, NextLock, WorldOk, FrameOk, LockOk, Queue, Entering;
    var f, t := s.calls[c], Next(cfg, s, Run(c, e));
    NextStamped(cfg, s.db, s.now, s.cluster, f, e);
    var x := if Enters(f, until) then Some(f.moving.tr.id) else None;
    forall u | u in Queue(t.db, until) && u !in Queue(s.db, until) ensures x == Some(u) {
      NewInQueue(cfg, WorldOf(s), f, e, until, u);
    }
    QueueSizes(Queue(s.db, until), Queue(t.db, until), but, x);
    EnteringStep(s.calls, c, t.calls[c], until);
    hide Queue, Entering;
  }

  lemma EnteringStep(calls: map<CallId, Frame>, c: CallId, g: Frame, until: Time)
    requires c in calls && !Enters(g, until)
    ensures |Entering(calls[c := g], until)| <= |Entering(calls, until)| - (if Enters(calls[c], until) then 1 else 0)
  {
    hide Enters;
    var v, w := Entering(calls, until), Entering(calls[c := g], until);
    assert w == v - {c};
    if Enters(calls[c], until) { assert v == w + {c}; }
  }

  // ---------------------------------------------------------------- one pass

  predicate Lists(db: Db, trs: seq<Trade>, t: TradeId)
    requires t in db.trades
  {
    exists k :: 0 <= k < |trs| && trs[k] == db.trades[t]
  }

  /** The pass still has this trade before it. */
  predicate Pledged(db: Db, f: Frame, t: TradeId)
    requires t in db.trades
  {
    match f
    case Sweep(Loading(ids, loaded, None)) => t in ids || Lists(db, loaded, t)
    case Sweep(Expiring(rest, None)) => Lists(db, rest, t)
    case Move(Applying(tr, _, to, _, ThenSweep(rest, None), _)) =>
      (to == Cancelled && tr == db.trades[t]) || Lists(db, rest, t)
    case Move(Logging(_, _, _, _, ThenSweep(rest, None), _)) => Lists(db, rest, t)
    case Move(Rereading(_, ThenSweep(rest, None))) => Lists(db, rest, t)
    case _ => false
  }

  /** While a batch trade is still accepted, its row is what it was and the pass will get
      to it. */
  ghost predicate Pass(db: Db, f: Frame, batch: set<TradeId>, until: Time)
  {
    forall t :: t in batch ==>
      && t in db.trades && Reaches(Accepted, db.trades[t].state)
      && (db.trades[t].state == Accepted ==> db.trades[t].updatedAt <= until && Pledged(db, f, t))
  }

  /** Another call's step, or time, does not unpledge a trade. */
  lemma PassStable(v: Db, w: Db, f: Frame, batch: set<TradeId>, until: Time)
    requires TradesGrow(v.trades, w.trades) && Pass(v, f, batch, until)
    ensures Pass(w, f, batch, until)
  {
    forall t | t in batch
      ensures t in w.trades && Reaches(Accepted, w.trades[t].state)
      ensures w.trades[t].state == Accepted ==> w.trades[t] == v.trades[t]
    {
      ReachesTransitive(Accepted, v.trades[t].state, w.trades[t].state);
      ReachesIsPaths(Accepted, v.trades[t].state);
    }
    hide TradesGrow, Reaches;
  }

  predicate Sweeps(f: Frame)
  {
    match f
    case Sweep(s) => s.cutoff.None?
    case Move(m) => m.cont.ThenSweep? && m.cont.cutoff.None?
    case _ => false
  }

  /** Rows still to be loaded exist, so a pass never stops early. */
  predicate Loadable(db: Db, f: Frame)
  {
    f.Sweep? && f.sweeping.Loading? ==> forall t :: t in f.sweeping.ids ==> t in db.trades
  }

  ghost predicate PassOk(db: Db, f: Frame, batch: set<TradeId>, until: Time)
  {
    Sweeps(f) && Loadable(db, f) && Pass(db, f, batch, until)
  }

  /** Done, and nothing of the batch is accepted any more. */
  ghost predicate PassDone(db: Db, f: Frame, batch: set<TradeId>)
  {
    f == Returned(Swept)
    && forall t :: t in batch ==> t in db.trades && db.trades[t].state != Accepted && Reaches(Accepted, db.trades[t].state)
  }

  lemma ListsSteps(db: Db, trs: seq<Trade>, t: TradeId)
    requires t in db.trades && trs != [] && Lists(db, trs, t)
    ensures trs[0] == db.trades[t] || Lists(db, trs[1..], t)
  {
    var k :| 0 <= k < |trs| && trs[k] == db.trades[t];
    if k > 0 { assert trs[1..][k - 1] == trs[k]; }
  }

  lemma ListsGrows(db: Db, trs: seq<Trade>, tr: Trade, t: TradeId)
    requires t in db.trades
    ensures Lists(db, trs, t) || tr == db.trades[t] ==> Lists(db, trs + [tr], t)
  {
    if Lists(db, trs, t) {
      var k :| 0 <= k < |trs| && trs[k] == db.trades[t];
      assert (trs + [tr])[k] == db.trades[t];
    } else if tr == db.trades[t] {
      assert (trs + [tr])[|trs|] == db.trades[t];
    }
  }

  lemma LoadingPass(cfg: Config, db: Db, now: Time, s: Sweeping, batch: set<TradeId>, until: Time)
    requires s.Loading? && PassOk(db, Sweep(s), batch, until)
    ensures PassOk(db, AdvanceSweep(cfg, db, now, s).frame, batch, until)
  {
    hide Lists, Reaches;
    var g := AdvanceSweep(cfg, db, now, s).frame;
    if s.ids != [] {
      assert s.ids[0] in s.ids;
      forall t | t in batch && db.trades[t].state == Accepted ensures Pledged(db, g, t) {
        ListsGrows(db, s.loaded, db.trades[s.ids[0]], t);
        assert t in s.ids ==> t == s.ids[0] || t in s.ids[1..];
      }
    }
  }

  /** The re-check never spares a trade of the batch that is still accepted. */
  lemma ExpiringPass(cfg: Config, db: Db, now: Time, s: Sweeping, batch: set<TradeId>, until: Time)
    requires AcceptancesOk(db, now) && s.Expiring? && PassOk(db, Sweep(s), batch, until)
    requires cfg.acceptTtl > 0 && until + cfg.acceptTtl <= now
    ensures var g := AdvanceSweep(cfg, db, now, s).frame; PassOk(db, g, batch, until) || PassDone(db, g, batch)
  {
    hide Reaches, PastDeadline, AcceptancesOk;
    var g := AdvanceSweep(cfg, db, now, s).frame;
    if s.rest != [] {
      ExpirableIsAccepted(cfg, db, s.rest[0], now);
      forall t | t in batch && db.trades[t].state == Accepted ensures Pledged(db, g, t) {
        ListsSteps(db, s.rest, t);
        AcceptedIsExpired(cfg, db, t, until, now);
      }
      hide Lists, Pass;
    }
  }

  lemma ExpirableIsAccepted(cfg: Config, db: Db, tr: Trade, now: Time)
    ensures Expirable(cfg, db, tr, None, now) ==> tr.state == Accepted
  {
  }

  /** Winning or losing the race, the trade just attempted is no longer accepted. */
  lemma AttemptedPass(w: World, m: Moving, batch: set<TradeId>, until: Time)
    requires TradesOk(w.db, w.now) && m.Applying? && PassOk(w.db, Move(m), batch, until)
    requires TradesGrow(w.db.trades, CasState(w.db, m.tr.id, m.tr.state, m.to, m.at).trades)
    ensures PassOk(CasState(w.db, m.tr.id, m.tr.state, m.to, m.at), Move(Rereading(m.tr.id, m.cont)), batch, until)
  {
    hide TradesOk, Lists, TradesGrow;
    var v := CasState(w.db, m.tr.id, m.tr.state, m.to, m.at);
    PassStable(w.db, v, Move(m), batch, until);
    forall t | t in batch && v.trades[t].state == Accepted ensures Pledged(v, Move(Rereading(m.tr.id, m.cont)), t) {
      RowId(w.db, w.now, t);
    }
  }

  lemma RowId(db: Db, now: Time, t: TradeId)
    requires TradesOk(db, now) && t in db.trades
    ensures db.trades[t].id == t
  {
  }

  lemma MovingPass(cfg: Config, w: World, m: Moving, batch: set<TradeId>, until: Time)
    requires TradesOk(w.db, w.now) && MoveOk(cfg, w, m) && PassOk(w.db, Move(m), batch, until)
    requires TradesGrow(w.db.trades, AdvanceMove(w.db, w.now, m).db.trades)
    ensures var r := AdvanceMove(w.db, w.now, m); PassOk(r.db, r.frame, batch, until)
  {
    hide Lists, TradesGrow, TradesOk, ContOk, ApplyOk;
    var r := AdvanceMove(w.db, w.now, m);
    if m.Applying? {
      AttemptedPass(w, m, batch, until);
    } else {
      PassStable(w.db, r.db, Move(m), batch, until);
    }
    hide Reaches;
  }

  /** The pass's own step. */
  lemma OwnPass(cfg: Config, w: World, f: Frame, e: Env, batch: set<TradeId>, until: Time)
    requires WorldOk(cfg, w) && FrameOk(cfg, w, f) && Ready(cfg, w.db, w.now, f, e) && PassOk(w.db, f, batch, until)
    requires cfg.acceptTtl > 0 && until + cfg.acceptTtl <= w.now
    requires Grows(w.db, Advance(cfg, w.db, w.now, w.cluster, f, e).db)
    ensures var r := Advance(cfg, w.db, w.now, w.cluster, f, e);
            PassOk(r.db, r.frame, batch, until) || PassDone(r.db, r.frame, batch)
  {
    hide TradesOk, AcceptancesOk, RequestsOk, SettlementOk, ChainOk, LedgerOk, ReceiptsOk, TradesGrow, RequestsGrow,
         MoveOk, AdvanceMove, AdvanceSweep, SweepOk, Pass, PassDone;
    if f.Sweep? {
      if f.sweeping.Loading? {
        LoadingPass(cfg, w.db, w.now, f.sweeping, batch, until);
        SweepReads(cfg, w.db, w.now, f.sweeping);
      } else {
        ExpiringPass(cfg, w.db, w.now, f.sweeping, batch, until);
        SweepReads(cfg, w.db, w.now, f.sweeping);
      }
    } else {
      MovingPass(cfg, w, f.moving, batch, until);
    }
  }

  lemma SweepReads(cfg: Config, db: Db, now: Time, s: Sweeping)
    ensures AdvanceSweep(cfg, db, now, s).db == db
  {
  }

  lemma PassOkStable(v: Db, w: Db, f: Frame, batch: set<TradeId>, until: Time)
    requires Grows(v, w) && PassOk(v, f, batch, until)
    ensures PassOk(w, f, batch, until)
  {
    hide RequestsGrow, Pass, Sweeps;
    PassStable(v, w, f, batch, until);
  }

  lemma PassDoneStable(v: Db, w: Db, f: Frame, batch: set<TradeId>)
    requires Grows(v, w) && PassDone(v, f, batch)
    ensures PassDone(w, f, batch)
  {
    hide RequestsGrow;
    forall t | t in batch
      ensures t in w.trades && w.trades[t].state != Accepted && Reaches(Accepted, w.trades[t].state)
    {
      ReachesTransitive(Accepted, v.trades[t].state, w.trades[t].state);
      ReachesIsPaths(Accepted, v.trades[t].state);
    }
  }

  // ---------------------------------------------------------------- over a run

  ghost predicate PassAt(s: State, c: CallId, batch: set<TradeId>, until: Time)
  {
    && c in s.calls
    && (PassOk(s.db, s.calls[c], batch, until) || PassDone(s.db, s.calls[c], batch))
  }

  lemma PassStep(cfg: Config, s: State, step: Step, c: CallId, batch: set<TradeId>, until: Time)
    requires Inv(cfg, s) && Enabled(cfg, s, step) && PassAt(s, c, batch, until)
    requires cfg.acceptTtl > 0 && until + cfg.acceptTtl <= s.now
    ensures PassAt(Next(cfg, s, step), c, batch, until)
  {
    hide WorldOk, FrameOk, LockOk, Ready, Advance, NextLock, Grows, PassOk;
    var t := Next(cfg, s, step);
    StepKeeps(cfg, s, step);
    var f := s.calls[c];
    if step.Run? && step.c == c {
      assert !PassDone(s.db, f, batch);
      OwnPass(cfg, WorldOf(s), f, step.e, batch, until);
    } else {
      assert t.calls[c] == f;
      if PassOk(s.db, f, batch, until) {
        PassOkStable(s.db, t.db, f, batch, until);
      } else {
        PassDoneStable(s.db, t.db, f, batch);
      }
    }
  }

  lemma {:induction false} ClockForward(cfg: Config, states: seq<State>, steps: seq<Step>, i: nat, j: nat)
    requires IsRun(cfg, states, steps) && i <= j < |states|
    ensures states[i].now <= states[j].now
    decreases j
  {
    hide Ready, Advance, NextLock, Holds, Waits;
    if i < j {
      ClockForward(cfg, states, steps, i, j - 1);
      assert Enabled(cfg, states[j - 1], steps[j - 1]) && states[j] == Next(cfg, states[j - 1], steps[j - 1]);
    }
  }

  lemma {:induction false} PassRuns(cfg: Config, states: seq<State>, steps: seq<Step>, i: nat, j: nat, c: CallId, batch: set<TradeId>, until: Time)
    requires IsRun(cfg, states, steps) && i <= j < |states| && PassAt(states[i], c, batch, until)
    requires cfg.acceptTtl > 0 && until + cfg.acceptTtl <= states[i].now
    ensures PassAt(states[j], c, batch, until)
    decreases j
  {
    hide PassAt, Inv, Enabled, Next;
    if i < j {
      PassRuns(cfg, states, steps, i, j - 1, c, batch, until);
      Invariant(cfg, states, steps, j - 1);
      ClockForward(cfg, states, steps, i, j - 1);
      PassStep(cfg, states[j - 1], steps[j - 1], c, batch, until);
    }
  }

  lemma {:induction false} AheadRuns(cfg: Config, states: seq<State>, steps: seq<Step>, i: nat, j: nat, until: Time, but: set<TradeId>)
    requires IsRun(cfg, states, steps) && i <= j < |states| && until < states[i].now
    ensures AheadBut(states[j], until, but) <= AheadBut(states[i], until, but)
    decreases j
  {
    hide AheadBut, Inv, Enabled, Next;
    if i < j {
      AheadRuns(cfg, states, steps, i, j - 1, until, but);
      Invariant(cfg, states, steps, j - 1);
      ClockForward(cfg, states, steps, i, j - 1);
      AheadDrains(cfg, states[j - 1], steps[j - 1], until, but);
    }
  }

  /** A pass over accepted trades that starts at one state and has ended by another. */
  ghost predicate IsPass(cfg: Config, states: seq<State>, steps: seq<Step>, limit: nat, i: nat, j: nat)
  {
    && i < j < |states| && i < |steps|
    && steps[i].Run? && steps[i].c in states[i].calls
    && states[i].calls[steps[i].c] == Open(Start(SweepAccepted(limit)))
    && steps[i].c in states[j].calls && states[j].calls[steps[i].c].Returned?
  }

  lemma {:induction false} DistinctSize(ids: seq<TradeId>, s: set<TradeId>)
    requires forall i, j :: 0 <= i < j < |ids| ==> ids[i] != ids[j]
    requires s == set t | t in ids
    ensures |s| == |ids|
  {
    if ids != [] {
      var last := ids[|ids| - 1];
      assert ids == ids[..|ids| - 1] + [last];
      DistinctSize(ids[..|ids| - 1], s - {last});
    }
  }

  /** The trades this pass can be held to: the expired one if the batch has it, otherwise
      the whole batch, all of it ordered no later. */
  ghost function Target(batch: seq<TradeId>, t: TradeId): set<TradeId>
  {
    if t in batch then {t} else set u | u in batch
  }

  lemma BatchIsAhead(cfg: Config, s: State, limit: nat, batch: seq<TradeId>, t: TradeId)
    requires Inv(cfg, s) && t in s.db.trades && s.db.trades[t].state == Accepted
    requires IsBatch(s.db, batch, limit, (id: TradeId) => AcceptedRow(s.db, id, s.now))
    ensures Target(batch, t) <= Queue(s.db, s.db.trades[t].updatedAt)
    ensures t !in batch ==> |Target(batch, t)| == Bound(limit)
  {
    hide FramesOk, LockOk, TradesOk, RequestsOk, SettlementOk, ChainOk, LedgerOk, ReceiptsOk;
    var row := (id: TradeId) => AcceptedRow(s.db, id, s.now);
    assert AcceptedBy(s.db, s.db.trades[t], s.db.trades[t].updatedAt);
    assert row(t);
    if t !in batch {
      DistinctSize(batch, Target(batch, t));
      forall u | u in batch ensures u in Queue(s.db, s.db.trades[t].updatedAt) {
        var k :| 0 <= k < |batch| && batch[k] == u;
        assert row(batch[k]);
      }
    }
  }

  lemma StartPass(cfg: Config, s: State, c: CallId, e: Env, limit: nat, batch: set<TradeId>, until: Time)
    requires cfg.acceptTtl > 0 && Enabled(cfg, s, Run(c, e)) && s.calls[c] == Open(Start(SweepAccepted(limit)))
    requires batch <= Queue(s.db, until) && forall t :: t in batch ==> t in e.batch
    ensures PassAt(Next(cfg, s, Run(c, e)), c, batch, until)
  {
    var row := (id: TradeId) => AcceptedRow(s.db, id, s.now);
    assert IsBatch(s.db, e.batch, limit, row);
    var w := Next(cfg, s, Run(c, e));
    assert w.calls[c] == Sweep(Loading(e.batch, [], None)) && w.db == s.db;
    hide Ready, Advance, Lists;
    forall t | t in e.batch ensures t in s.db.trades {
      var k :| 0 <= k < |e.batch| && e.batch[k] == t;
    }
  }

  /** A full pass either expires the trade or takes a whole batch from ahead of it. */
  lemma PassShrinks(cfg: Config, states: seq<State>, steps: seq<Step>, limit: nat, i: nat, j: nat, t: TradeId)
    requires IsRun(cfg, states, steps) && cfg.acceptTtl > 0 && IsPass(cfg, states, steps, limit, i, j)
    requires t in states[i].db.trades && states[i].db.trades[t].state == Accepted
    requires states[i].db.trades[t].updatedAt + cfg.acceptTtl <= states[i].now
    ensures t in states[j].db.trades
    ensures var until := states[i].db.trades[t].updatedAt;
            states[j].db.trades[t].state != Accepted
            || Ahead(states[j], until) + Bound(limit) <= Ahead(states[i], until)
  {
    hide Inv, Next, Queue, Entering, PassOk;
    var c, e, until := steps[i].c, steps[i].e, states[i].db.trades[t].updatedAt;
    Invariant(cfg, states, steps, i);
    BatchOf(cfg, states[i], steps[i], limit);
    BatchIsAhead(cfg, states[i], limit, e.batch, t);
    var b := Target(e.batch, t);
    StartPass(cfg, states[i], c, e, limit, b, until);
    ClockForward(cfg, states, steps, i, i + 1);
    hide Enabled, IsBatch;
    PassRuns(cfg, states, steps, i + 1, j, c, b, until);
    TablesGrow(cfg, states, steps, i, j);
    StillThere(states[i].db, states[j].db, t);
    hide IsRun;
    EndedPass(states[j], c, b, until);
    if t !in e.batch {
      AheadRuns(cfg, states, steps, i, j, until, b);
      LeavesQueue(states[i], states[j], b, until);
    }
  }

  lemma StillThere(v: Db, w: Db, t: TradeId)
    requires Grows(v, w) && t in v.trades
    ensures t in w.trades
  {
  }

  lemma BatchOf(cfg: Config, s: State, step: Step, limit: nat)
    requires Enabled(cfg, s, step) && step.Run? && s.calls[step.c] == Open(Start(SweepAccepted(limit)))
    ensures IsBatch(s.db, step.e.batch, limit, (id: TradeId) => AcceptedRow(s.db, id, s.now))
  {
  }

  lemma EndedPass(s: State, c: CallId, batch: set<TradeId>, until: Time)
    requires PassAt(s, c, batch, until) && s.calls[c].Returned?
    ensures PassDone(s.db, s.calls[c], batch)
  {
  }

  lemma LeavesQueue(v: State, w: State, batch: set<TradeId>, until: Time)
    requires batch <= Queue(v.db, until) && AheadBut(w, until, batch) <= AheadBut(v, until, batch)
    requires forall t :: t in batch ==> t in w.db.trades && w.db.trades[t].state != Accepted
    ensures Ahead(w, until) + |batch| <= Ahead(v, until)
  {
    assert Queue(w.db, until) - batch == Queue(w.db, until) == Queue(w.db, until) - {};
    assert Queue(v.db, until) - {} == Queue(v.db, until);
    hide Queue, Entering;
    assert Queue(v.db, until) == (Queue(v.db, until) - batch) + batch;
  }

  // ---------------------------------------------------------------- several passes

  /** Passes one after another, other calls running all the while. */
  ghost predicate ArePasses(cfg: Config, states: seq<State>, steps: seq<Step>, limit: nat, passes: seq<(nat, nat)>)
  {
    && (forall k :: 0 <= k < |passes| ==> IsPass(cfg, states, steps, limit, passes[k].0, passes[k].1))
    && (forall k :: 0 <= k < |passes| - 1 ==> passes[k].1 <= passes[k + 1].0)
  }

  lemma {:induction false} PassesShrink(cfg: Config, states: seq<State>, steps: seq<Step>, limit: nat, passes: seq<(nat, nat)>, t: TradeId)
    requires IsRun(cfg, states, steps) && cfg.acceptTtl > 0 && passes != [] && ArePasses(cfg, states, steps, limit, passes)
    requires var s := states[passes[0].0];
             t in s.db.trades && s.db.trades[t].state == Accepted && s.db.trades[t].updatedAt + cfg.acceptTtl <= s.now
    ensures var s, w := states[passes[0].0], states[passes[|passes| - 1].1];
            t in w.db.trades
            && (w.db.trades[t].state != Accepted
                || Ahead(w, s.db.trades[t].updatedAt) + |passes| * Bound(limit) <= Ahead(s, s.db.trades[t].updatedAt))
    ensures passes[0].0 < passes[|passes| - 1].1
    decreases |passes|
  {
    hide IsRun, Ahead, Bound;
    var n := |passes| - 1;
    assert IsPass(cfg, states, steps, limit, passes[n].0, passes[n].1);
    if n == 0 {
      PassShrinks(cfg, states, steps, limit, passes[0].0, passes[0].1, t);
      TimesOne(Bound(limit));
    } else {
      var earlier := passes[..n];
      PassesShrink(cfg, states, steps, limit, earlier, t);
      assert passes[n - 1].1 <= passes[n].0;
      LastPass(cfg, states, steps, limit, passes[0].0, passes[n - 1].1, passes[n].0, passes[n].1, t, n);
    }
  }

  lemma TimesOne(b: nat)
    ensures 1 * b == b
  {
  }

  lemma OneMore(n: nat, b: nat)
    ensures (n + 1) * b == n * b + b
  {
  }

  /** One more pass after n. */
  lemma LastPass(cfg: Config, states: seq<State>, steps: seq<Step>, limit: nat, a: nat, b: nat, i: nat, j: nat, t: TradeId, n: nat)
    requires IsRun(cfg, states, steps) && cfg.acceptTtl > 0 && IsPass(cfg, states, steps, limit, i, j) && a < b <= i
    requires t in states[a].db.trades && states[a].db.trades[t].state == Accepted
    requires states[a].db.trades[t].updatedAt + cfg.acceptTtl <= states[a].now
    requires var until := states[a].db.trades[t].updatedAt;
             t in states[b].db.trades && (states[b].db.trades[t].state != Accepted
                                          || Ahead(states[b], until) + n * Bound(limit) <= Ahead(states[a], until))
    ensures var until := states[a].db.trades[t].updatedAt;
            t in states[j].db.trades && (states[j].db.trades[t].state != Accepted
                                         || Ahead(states[j], until) + (n + 1) * Bound(limit) <= Ahead(states[a], until))
  {
    hide IsRun, Ahead, Bound, Queue, Entering;
    var until := states[a].db.trades[t].updatedAt;
    TablesGrow(cfg, states, steps, a, b);
    TablesGrow(cfg, states, steps, b, i);
    TablesGrow(cfg, states, steps, i, j);
    OnceLeft(states[a].db, states[b].db, t);
    OnceLeft(states[b].db, states[i].db, t);
    OnceLeft(states[i].db, states[j].db, t);
    hide Grows;
    ClockForward(cfg, states, steps, a, b);
    ClockForward(cfg, states, steps, b, i);
    if states[j].db.trades[t].state == Accepted {
      PassShrinks(cfg, states, steps, limit, i, j, t);
      AheadBetween(cfg, states, steps, b, i, until);
      OneMore(n, Bound(limit));
    }
  }

  lemma AheadBetween(cfg: Config, states: seq<State>, steps: seq<Step>, i: nat, j: nat, until: Time)
    requires IsRun(cfg, states, steps) && i <= j < |states| && until < states[i].now
    ensures Ahead(states[j], until) <= Ahead(states[i], until)
  {
    hide IsRun, AheadBut;
    AheadRuns(cfg, states, steps, i, j, until, {});
  }

  /** A row found accepted again later never left, and is the same row. */
  lemma OnceLeft(v: Db, w: Db, t: TradeId)
    requires Grows(v, w) && t in v.trades
    ensures t in w.trades
    ensures w.trades[t].state == Accepted && Reaches(Accepted, v.trades[t].state) ==> v.trades[t] == w.trades[t]
    ensures Reaches(Accepted, v.trades[t].state) ==> Reaches(Accepted, w.trades[t].state)
  {
    hide RequestsGrow;
    ReachesIsPaths(Accepted, v.trades[t].state);
    if Reaches(Accepted, v.trades[t].state) { ReachesTransitive(Accepted, v.trades[t].state, w.trades[t].state); }
  }

  /** A trade whose acceptances are a full term old at its last update leaves "accepted"
      within as many passes as it takes to clear what is ordered ahead of it, itself
      included, a batch at a time. */
  lemma LeavesWithinItsRank(cfg: Config, states: seq<State>, steps: seq<Step>, limit: nat, passes: seq<(nat, nat)>, t: TradeId)
    requires IsRun(cfg, states, steps) && cfg.acceptTtl > 0 && passes != [] && ArePasses(cfg, states, steps, limit, passes)
    requires var s := states[passes[0].0];
             && t in s.db.trades && s.db.trades[t].state == Accepted && s.db.trades[t].updatedAt + cfg.acceptTtl <= s.now
             && Ahead(s, s.db.trades[t].updatedAt) <= |passes| * Bound(limit)
    ensures var w := states[passes[|passes| - 1].1]; t in w.db.trades && w.db.trades[t].state != Accepted
  {
    hide IsRun, Bound, Entering;
    var i, j := passes[0].0, passes[|passes| - 1].1;
    assert IsPass(cfg, states, steps, limit, passes[|passes| - 1].0, j);
    PassesShrink(cfg, states, steps, limit, passes, t);
    TablesGrow(cfg, states, steps, i, j);
    OnceLeft(states[i].db, states[j].db, t);
    AcceptedIsAhead(states[j], t, states[i].db.trades[t].updatedAt);
    hide Ahead, Grows;
  }

  lemma AcceptedIsAhead(s: State, t: TradeId, until: Time)
    requires t in s.db.trades
    ensures s.db.trades[t].state == Accepted && s.db.trades[t].updatedAt <= until ==> Ahead(s, until) >= 1
  {
    if s.db.trades[t].state == Accepted && s.db.trades[t].updatedAt <= until {
      assert t in Queue(s.db, until) - {};
    }
  }
}
