/** What holds between calls when calls do not overlap. */
module Sequential {
  import opened Options
  import opened Domain
  import opened Tables
  import opened Protocol
  import opened Safety
  import opened Interleaving
  import opened Runs
  import opened MethodGrain
  import opened EventLog

  const IDLE := Returned(Swept)

  ghost predicate Fact(cfg: Config, db: Db, now: Time, f: Frame) { Solo(cfg, db, now, f) && Logged(db, now, f) }

  ghost predicate OneActive(calls: map<CallId, Frame>)
  {
    forall c, d :: c in calls && d in calls && !calls[c].Returned? && !calls[d].Returned? ==> c == d
  }

  ghost predicate SeqInv(cfg: Config, s: State)
  {
    && Inv(cfg, s) && OneActive(s.calls)
    && (forall c :: c in s.calls && !s.calls[c].Returned? ==> Fact(cfg, s.db, s.now, s.calls[c]))
    && (Idle(s) ==> Fact(cfg, s.db, s.now, IDLE))
  }

  // ---------------------------------------------------------------- one step

  lemma FactStep(cfg: Config, w: World, f: Frame, e: Env)
    requires WorldOk(cfg, w) && FrameOk(cfg, w, f) && Ready(cfg, w.db, w.now, f, e) && Fact(cfg, w.db, w.now, f)
    ensures var r := Advance(cfg, w.db, w.now, w.cluster, f, e); Fact(cfg, r.db, w.now, r.frame)
  {
    hide WorldOk, FrameOk, Ready, Advance, Solo, Logged;
    StepAlone(cfg, w, f, e);
    LogStep(cfg, w, f, e);
  }

  lemma FactIdles(cfg: Config, db: Db, now: Time, out: Outcome)
    ensures Fact(cfg, db, now, Returned(out)) ==> Fact(cfg, db, now, IDLE)
  {
    hide QuietTrade, Replays, InTimeOrder;
  }

  lemma FactStarts(cfg: Config, db: Db, now: Time, cmd: Command)
    requires Fact(cfg, db, now, IDLE)
    ensures Fact(cfg, db, now, Open(Start(cmd)))
  {
    hide QuietTrade, Replays, InTimeOrder;
  }

  /** Time passing only lets requests lapse. */
  lemma FactTicks(cfg: Config, db: Db, now: Time, to: Time, f: Frame)
    requires Fact(cfg, db, now, f) && now <= to
    ensures Fact(cfg, db, to, f)
  {
    QuietTicks(db, now, to, f);
    if f.Move? && f.moving.Applying? { LiveTicks(db, f.moving.tr.id, now, to); }
    hide Quiet, HasLiveRequest, HasIssued, Replays;
  }

  lemma LiveTicks(db: Db, id: TradeId, now: Time, to: Time)
    requires now <= to
    ensures HasLiveRequest(db, id, to) ==> HasLiveRequest(db, id, now)
  {
    if HasLiveRequest(db, id, to) {
      var r :| r in db.requests && db.requests[r].trade == id && db.requests[r].Live(to);
      assert db.requests[r].Live(now);
    }
  }

  lemma QuietTicks(db: Db, now: Time, to: Time, f: Frame)
    requires Quiet(db, now, f) && now <= to
    ensures Quiet(db, to, f)
  {
    hide HasLiveRequest, HasIssued, HasRequest, Awaits;
    forall t | t in db.trades && !Awaits(f, t) ensures QuietTrade(db, to, t) {
      LiveTicks(db, t, now, to);
    }
  }

  lemma SeqRun(cfg: Config, s: State, c: CallId, e: Env)
    requires SeqInv(cfg, s) && Enabled(cfg, s, Run(c, e))
    ensures SeqInv(cfg, Next(cfg, s, Run(c, e)))
  {
    hide Inv, Fact, Ready, Advance, NextLock;
    StepKeeps(cfg, s, Run(c, e));
    InvFrame(cfg, s, c);
    FactStep(cfg, WorldOf(s), s.calls[c], e);
    var t := Next(cfg, s, Run(c, e));
    forall d | d in t.calls && d != c ensures t.calls[d].Returned? {
      assert d in s.calls;
    }
    if t.calls[c].Returned? { FactIdles(cfg, t.db, t.now, t.calls[c].out); }
  }

  lemma InvFrame(cfg: Config, s: State, c: CallId)
    requires Inv(cfg, s) && c in s.calls
    ensures WorldOk(cfg, WorldOf(s)) && FrameOk(cfg, WorldOf(s), s.calls[c])
  {
    hide DbOk, FrameOk, LockOk;
  }

  lemma SeqStep(cfg: Config, s: State, step: Step)
    requires SeqInv(cfg, s) && Enabled(cfg, s, step) && (step.Invoke? ==> Idle(s))
    ensures SeqInv(cfg, Next(cfg, s, step))
  {
    hide Inv, Fact, Ready, Advance, NextLock;
    match step
    case Invoke(c, cmd) =>
      StepKeeps(cfg, s, step);
      FactStarts(cfg, s.db, s.now, cmd);
    case Run(c, e) => SeqRun(cfg, s, c, e);
    case Tick(to) =>
      StepKeeps(cfg, s, step);
      forall f | Fact(cfg, s.db, s.now, f) ensures Fact(cfg, s.db, to, f) {
        FactTicks(cfg, s.db, s.now, to, f);
      }
    case Repoint(cluster) => StepKeeps(cfg, s, step);
  }

  // ---------------------------------------------------------------- whole runs

  lemma SeqInit(cfg: Config, now: Time, cluster: Cluster)
    ensures SeqInv(cfg, Init(now, cluster))
  {
    InitOk(cfg, now, cluster);
    hide Inv;
  }

  lemma {:induction false} SeqInvariant(cfg: Config, states: seq<State>, steps: seq<Step>, i: nat)
    requires IsSequentialRun(cfg, states, steps) && i < |states|
    ensures SeqInv(cfg, states[i])
  {
    hide SeqInv, Enabled, Next, Idle;
    if i == 0 {
      SeqInit(cfg, states[0].now, states[0].cluster);
    } else {
      SeqInvariant(cfg, states, steps, i - 1);
      SeqStep(cfg, states[i - 1], steps[i - 1]);
    }
  }

  /** A state some run without overlapping calls ends in, with every call returned. */
  ghost predicate Between(cfg: Config, s: State)
  {
    exists states, steps :: IsSequentialRun(cfg, states, steps) && states != [] && s == states[|states| - 1] && Idle(s)
  }

  lemma BetweenFact(cfg: Config, s: State)
    requires Between(cfg, s)
    ensures Inv(cfg, s) && Fact(cfg, s.db, s.now, IDLE)
  {
    hide Inv, Fact, IsRun;
    var states, steps :| IsSequentialRun(cfg, states, steps) && states != [] && s == states[|states| - 1] && Idle(s);
    SeqInvariant(cfg, states, steps, |states| - 1);
  }

  /** Recorded, settled and cancelled trades never hold a request that is issued and
      unexpired: nothing is left for the buyer to sign. */
  lemma FinishedHoldNoLiveRequest(cfg: Config, s: State, t: TradeId, r: RequestId)
    requires Between(cfg, s) && t in s.db.trades && s.db.trades[t].state in {Recorded, Settled, Cancelled}
    requires r in s.db.requests && s.db.requests[r].trade == t
    ensures s.db.requests[r].status != Issued || s.now >= s.db.requests[r].expiresAt
  {
    hide Inv, Logged, Between;
    BetweenFact(cfg, s);
    assert !Awaits(IDLE, t);
    assert QuietTrade(s.db, s.now, t);
    LiveIsIssued(s.db, t, s.now);
    assert !HasLiveRequest(s.db, t, s.now);
    assert !s.db.requests[r].Live(s.now);
  }

  /** A receipt carries a settlement signature exactly when its trade settled on chain. */
  lemma ReceiptSignedIffSettled(cfg: Config, s: State, t: TradeId)
    requires Between(cfg, s) && t in s.db.receipts
    ensures t in s.db.trades && (s.db.receipts[t].signature.Some? <==> s.db.trades[t].state == Settled)
  {
    hide Between, Quiet, Logged;
    BetweenFact(cfg, s);
    hide TradesOk, AcceptancesOk, RequestsOk, SettlementOk, ChainOk, LedgerOk, FramesOk, LockOk;
    assert ReceiptOk(s.db, t);
  }

  /** The event log, in time order, replays to every stored state along legal moves. */
  lemma LogTellsHistory(cfg: Config, s: State, t: TradeId)
    requires Between(cfg, s)
    ensures t in s.db.trades ==> Path(Trail(s.db.events, t), Proposed, s.db.trades[t].state)
    ensures t !in s.db.trades ==> Trail(s.db.events, t) == []
    ensures forall i, j :: 0 <= i < j < |s.db.events| ==> s.db.events[i].at <= s.db.events[j].at
  {
    hide Between, Solo, Inv, Path;
    BetweenFact(cfg, s);
    assert Spells(s.db.events, t, StateOf(s.db, t));
    TrailIsPath(s.db.events, t, StateOf(s.db, t));
  }
}
