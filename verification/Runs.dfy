/** Safety over whole runs: any number of calls, interleaved in any way, each working on
    copies that may have gone stale. */
module Runs {
  import opened Options
  import opened Domain
  import opened Tables
  import opened Protocol
  import opened Safety
  import opened Transactions
  import opened Interleaving

  function WorldOf(s: State): World { World(s.db, s.now, s.cluster, s.landed) }

  ghost predicate FramesOk(cfg: Config, w: World, calls: map<CallId, Frame>)
  {
    forall c :: c in calls ==> FrameOk(cfg, w, calls[c])
  }

  /** With a spending check configured, the reserving section is never shared. */
  ghost predicate LockOk(cfg: Config, s: State)
  {
    && (cfg.capped ==> forall c :: c in s.calls && Holds(s.calls[c]) ==> s.lock == Some(c))
    && (s.lock.Some? ==> s.lock.value in s.calls && Holds(s.calls[s.lock.value]))
  }

  ghost predicate Inv(cfg: Config, s: State)
  {
    WorldOk(cfg, WorldOf(s)) && FramesOk(cfg, WorldOf(s), s.calls) && LockOk(cfg, s)
  }

  // ---------------------------------------------------------------- one step

  /** The step of any frame. */
  lemma FrameStep(cfg: Config, w: World, f: Frame, e: Env)
    requires WorldOk(cfg, w) && FrameOk(cfg, w, f) && Ready(cfg, w.db, w.now, f, e)
    ensures StepOk(cfg, w, Advance(cfg, w.db, w.now, w.cluster, f, e), Shown(f, e))
  {
    hide DbOk, OpenOk, AgreeOk, LeaveOk, SettleOk, SweepOk, MoveOk, StampOk, StepOk,
         OpenReady, LeaveReady, SettleReady, AdvanceOpen, AdvanceAgree, AdvanceLeave, AdvanceSettle, AdvanceSweep,
         AdvanceMove, AdvanceStamp;
    match f
    case Open(o) => OpenStep(cfg, w, o, e);
    case Agree(a) => AgreeStep(cfg, w, a);
    case Leave(l) => LeaveStep(cfg, w, l, e);
    case Settle(s) => SettleStep(cfg, w, s, e);
    case Sweep(s) => SweepStep(cfg, w, s);
    case Move(m) => MoveStep(cfg, w, m);
    case Stamp(p) => StampStep(cfg, w, p);
    case Returned(out) => ReadStep(cfg, w, f);
  }

  lemma FramesStable(cfg: Config, v: World, w: World, calls: map<CallId, Frame>)
    requires Later(v, w) && FramesOk(cfg, v, calls)
    ensures FramesOk(cfg, w, calls)
  {
    hide Later, FrameOk;
    forall c | c in calls ensures FrameOk(cfg, w, calls[c]) {
      FrameStable(cfg, v, w, calls[c]);
    }
  }

  lemma TickKeeps(cfg: Config, v: World, w: World)
    requires WorldOk(cfg, v) && v.now <= w.now && w == v.(now := w.now)
    ensures WorldOk(cfg, w) && Later(v, w)
  {
    GrowsRefl(v.db);
    hide Grows, RequestsOk, SettlementOk, ChainOk, LedgerOk, ReceiptsOk, Engaged, BothAccepted, AcceptedBy;
  }

  /** The lock passes from the call that waited for it back to nobody when its holder
      leaves the section. */
  lemma RunLock(cfg: Config, s: State, c: CallId, e: Env)
    requires LockOk(cfg, s) && Enabled(cfg, s, Run(c, e))
    ensures LockOk(cfg, Next(cfg, s, Run(c, e)))
  {
    var f := s.calls[c];
    var r := Advance(cfg, s.db, s.now, s.cluster, f, e);
    LockStep(cfg, s.db, s.now, s.cluster, f, e);
    hide Advance, Ready;
  }

  lemma LockStep(cfg: Config, db: Db, now: Time, cluster: Cluster, f: Frame, e: Env)
    requires Ready(cfg, db, now, f, e)
    ensures Waits(f) ==> Holds(Advance(cfg, db, now, cluster, f, e).frame)
    ensures cfg.capped && Holds(Advance(cfg, db, now, cluster, f, e).frame) ==> Waits(f) || Holds(f)
  {
    if f.Open? {
      hide Begun, IsBatch;
      BegunHoldsNothing(cfg, db, now, f.opening);
    } else {
      hide Ready;
      NeverOpens(cfg, db, now, cluster, f, e);
    }
  }

  lemma BegunHoldsNothing(cfg: Config, db: Db, now: Time, o: Opening)
    ensures o.Start? && !o.cmd.Create? && !o.cmd.SweepAccepted? && !o.cmd.SweepOpen? && o.cmd.id in db.trades ==>
              !Holds(Begun(cfg, o.cmd, db.trades[o.cmd.id], now))
  {
  }

  lemma NeverOpens(cfg: Config, db: Db, now: Time, cluster: Cluster, f: Frame, e: Env)
    requires Ready(cfg, db, now, f, e) && !f.Open?
    ensures !Advance(cfg, db, now, cluster, f, e).frame.Open?
  {
    hide OpenReady, AdvanceOpen;
    match f
    case Agree(a) =>
    case Leave(l) =>
    case Settle(s) => SettleNeverOpens(cfg, db, now, cluster, s, e);
    case Sweep(s) =>
    case Move(m) =>
    case Stamp(p) =>
    case Returned(_) =>
  }

  lemma SettleNeverOpens(cfg: Config, db: Db, now: Time, cluster: Cluster, s: Settling, e: Env)
    requires SettleReady(db, s, e)
    ensures !AdvanceSettle(cfg, db, now, cluster, s, e).frame.Open?
  {
  }

  lemma RunKeeps(cfg: Config, s: State, c: CallId, e: Env)
    requires Inv(cfg, s) && Enabled(cfg, s, Run(c, e))
    ensures Inv(cfg, Next(cfg, s, Run(c, e))) && Grows(s.db, Next(cfg, s, Run(c, e)).db)
  {
    hide WorldOk, FrameOk, Later, LockOk, Ready, Advance;
    RunLock(cfg, s, c, e);
    var f, v := s.calls[c], WorldOf(s);
    var r := Advance(cfg, s.db, s.now, s.cluster, f, e);
    FrameStep(cfg, v, f, e);
    var w := After(v, r, Shown(f, e));
    FramesStable(cfg, v, w, s.calls);
    LaterGrows(v, w);
    assert WorldOf(Next(cfg, s, Run(c, e))) == w;
  }

  lemma LaterGrows(v: World, w: World)
    requires Later(v, w)
    ensures Grows(v.db, w.db)
  {
  }

  lemma InvokeKeeps(cfg: Config, s: State, c: CallId, cmd: Command)
    requires Inv(cfg, s) && c !in s.calls
    ensures Inv(cfg, s.(calls := s.calls[c := Open(Start(cmd))]))
  {
    hide WorldOk, FrameOk;
    StartOk(cfg, WorldOf(s), cmd);
  }

  lemma StartOk(cfg: Config, w: World, cmd: Command)
    ensures FrameOk(cfg, w, Open(Start(cmd)))
  {
  }

  lemma TickStep(cfg: Config, s: State, to: Time)
    requires Inv(cfg, s) && s.now <= to
    ensures Inv(cfg, s.(now := to))
  {
    hide WorldOk, FrameOk, Later;
    TickKeeps(cfg, WorldOf(s), WorldOf(s).(now := to));
    FramesStable(cfg, WorldOf(s), WorldOf(s).(now := to), s.calls);
  }

  lemma RepointKeeps(cfg: Config, s: State, cluster: Cluster)
    requires Inv(cfg, s) && forall c :: c in s.calls ==> s.calls[c].Returned?
    ensures Inv(cfg, s.(cluster := cluster))
  {
    hide DbOk;
  }

  lemma StepKeeps(cfg: Config, s: State, step: Step)
    requires Inv(cfg, s) && Enabled(cfg, s, step)
    ensures Inv(cfg, Next(cfg, s, step)) && Grows(s.db, Next(cfg, s, step).db)
  {
    hide Inv, Grows, Ready, Advance, NextLock;
    match step
    case Invoke(c, cmd) => InvokeKeeps(cfg, s, c, cmd); GrowsRefl(s.db);
    case Run(c, e) => RunKeeps(cfg, s, c, e);
    case Tick(to) => TickStep(cfg, s, to); GrowsRefl(s.db);
    case Repoint(cluster) => RepointKeeps(cfg, s, cluster); GrowsRefl(s.db);
  }

  // ---------------------------------------------------------------- whole runs

  lemma InitOk(cfg: Config, now: Time, cluster: Cluster)
    ensures Inv(cfg, Init(now, cluster))
  {
  }

  /** Every reachable state satisfies the invariant. */
  lemma {:induction false} Invariant(cfg: Config, states: seq<State>, steps: seq<Step>, i: nat)
    requires IsRun(cfg, states, steps) && i < |states|
    ensures Inv(cfg, states[i])
  {
    hide Inv, Enabled, Next;
    if i == 0 {
      InitOk(cfg, states[0].now, states[0].cluster);
    } else {
      Invariant(cfg, states, steps, i - 1);
      StepKeeps(cfg, states[i - 1], steps[i - 1]);
    }
  }

  lemma GrowsTransitive(a: Db, b: Db, c: Db)
    requires Grows(a, b) && Grows(b, c)
    ensures Grows(a, c)
  {
    RequestsGrowTrans(a.requests, b.requests, c.requests) by { hide TradesGrow; }
    TradesGrowTransitive(a.trades, b.trades, c.trades);
    hide TradesGrow, RequestsGrow;
  }

  lemma TradesGrowTransitive(a: map<TradeId, Trade>, b: map<TradeId, Trade>, c: map<TradeId, Trade>)
    requires TradesGrow(a, b) && TradesGrow(b, c)
    ensures TradesGrow(a, c)
  {
    forall t | t in a ensures t in c && RowGrows(a[t], c[t]) {
      ReachesTransitive(a[t].state, b[t].state, c[t].state);
      ReachesIsPaths(b[t].state, a[t].state);
    }
  }

  /** Nothing stored is ever lost: trades keep their terms and move only forward,
      acceptances, events, ledger entries and receipts are final, a request is signed at
      most once and leaves "issued" at most once. */
  lemma {:induction false} TablesGrow(cfg: Config, states: seq<State>, steps: seq<Step>, i: nat, j: nat)
    requires IsRun(cfg, states, steps) && i <= j < |states|
    ensures Grows(states[i].db, states[j].db)
    decreases j
  {
    hide Inv, Enabled, Next, Grows;
    if i == j {
      GrowsRefl(states[i].db);
    } else {
      TablesGrow(cfg, states, steps, i, j - 1);
      Invariant(cfg, states, steps, j - 1);
      StepKeeps(cfg, states[j - 1], steps[j - 1]);
      GrowsTransitive(states[i].db, states[j - 1].db, states[j].db);
    }
  }
}
