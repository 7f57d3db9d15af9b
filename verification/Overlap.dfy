/** When a finished trade can still hold a live request. At the fine grain a build inserts
    its request, and a finishing call moves the trade, on copies and checks that may have
    gone stale. Over every run the outcome is decided by the order of those two writes, and
    by nothing else: one of the two calls must have been caught between its last look and
    its write. */
module Overlap {
  import opened Options
  import opened Domain
  import opened Tables
  import opened Protocol
  import opened Safety
  import opened Transactions
  import opened Interleaving
  import opened Runs
  import opened EventLog
  import opened MethodGrain
  import opened FineGrain

  predicate Finished(s: TradeState) { s in {Recorded, Settled, Cancelled} }

  ghost predicate IsFinished(db: Db, t: TradeId) { t in db.trades && Finished(db.trades[t].state) }

  /** What no finished trade should do: leave its buyer something to sign. */
  ghost predicate FinishedHoldsLive(s: State, t: TradeId)
  {
    IsFinished(s.db, t) && HasLiveRequest(s.db, t, s.now)
  }

  // ---------------------------------------------------------------- issuing and retiring

  /** The step inserts a request of this trade with this expiry. */
  predicate Inserts(s: State, step: Step, t: TradeId, x: Time)
  {
    step.Run? && step.c in s.calls && Inserting(s.calls[step.c], t) && step.e.expiresAt == x
  }

  predicate Inserting(f: Frame, t: TradeId) { f.Leave? && f.leaving.Building? && f.leaving.tr.id == t }

  /** The step ends every issued request of this trade. */
  predicate Retires(s: State, step: Step, t: TradeId)
  {
    step.Run? && step.c in s.calls && Retiring(s.db, s.calls[step.c], t)
  }

  predicate Retiring(db: Db, f: Frame, t: TradeId)
  {
    match f
    case Leave(Building(tr, _, _)) => tr.id == t
    case Settle(Lapsing(tr)) => tr.id == t
    case Settle(Withdrawing(tr)) => tr.id == t
    case Settle(Superseding(tr, _)) => tr.id == t
    case Settle(Confirming(tr, _, _, cur)) => tr.id == t && CanConfirm(db, cur)
    case _ => false
  }

  ghost predicate IssuedUntil(db: Db, t: TradeId, x: Time)
  {
    exists r :: r in db.requests && IssuedFor(db.requests[r], t) && db.requests[r].expiresAt == x
  }

  lemma LiveIsIssuedUntil(db: Db, t: TradeId, now: Time)
    ensures HasLiveRequest(db, t, now) <==> exists x: Time :: x > now && IssuedUntil(db, t, x)
  {
    if HasLiveRequest(db, t, now) {
      var r :| r in db.requests && db.requests[r].trade == t && db.requests[r].Live(now);
      assert IssuedUntil(db, t, db.requests[r].expiresAt);
    }
    forall x: Time | x > now && IssuedUntil(db, t, x) ensures HasLiveRequest(db, t, now) {
      var r :| r in db.requests && IssuedFor(db.requests[r], t) && db.requests[r].expiresAt == x;
      assert db.requests[r].Live(now);
    }
  }

  lemma ExpiredIssued(db: Db, id: TradeId, t: TradeId, x: Time)
    ensures IssuedUntil(ExpireRequests(db, id), t, x) <==> t != id && IssuedUntil(db, t, x)
  {
    var w := ExpireRequests(db, id);
    if IssuedUntil(w, t, x) {
      var r :| r in w.requests && IssuedFor(w.requests[r], t) && w.requests[r].expiresAt == x;
      assert r in db.requests && IssuedFor(db.requests[r], t);
    }
    if t != id && IssuedUntil(db, t, x) {
      var r :| r in db.requests && IssuedFor(db.requests[r], t) && db.requests[r].expiresAt == x;
      assert r in w.requests && w.requests[r] == db.requests[r];
    }
  }

  lemma CreatedIssued(db: Db, r: Request, t: TradeId, x: Time)
    requires r.id !in db.requests && r.status == Issued
    ensures IssuedUntil(CreateRequest(db, r), t, x)
            <==> if t == r.trade then x == r.expiresAt else IssuedUntil(db, t, x)
  {
    var v, w := ExpireRequests(db, r.trade), CreateRequest(db, r);
    ExpiredIssued(db, r.trade, t, x);
    hide ExpireRequests;
    assert w.requests == v.requests[r.id := r] by { CreateIsPut(db, r); }
    hide CreateRequest;
    if IssuedUntil(w, t, x) {
      var q :| q in w.requests && IssuedFor(w.requests[q], t) && w.requests[q].expiresAt == x;
      if q != r.id { assert q in v.requests && IssuedFor(v.requests[q], t) && v.requests[q].expiresAt == x; }
    }
    if t == r.trade && x == r.expiresAt { assert r.id in w.requests && IssuedFor(w.requests[r.id], t); }
    if IssuedUntil(v, t, x) {
      var q :| q in v.requests && IssuedFor(v.requests[q], t) && v.requests[q].expiresAt == x;
      assert r.id !in v.requests by { CreateIsPut(db, r); }
      assert q in w.requests && w.requests[q] == v.requests[q];
    }
  }

  lemma CreateIsPut(db: Db, r: Request)
    requires r.id !in db.requests
    ensures CreateRequest(db, r).requests == ExpireRequests(db, r.trade).requests[r.id := r]
    ensures r.id !in ExpireRequests(db, r.trade).requests
  {
  }

  lemma SignedIssued(db: Db, cur: RequestId, sig: Signature, t: TradeId, x: Time)
    ensures IssuedUntil(SignRequest(db, cur, sig), t, x) <==> IssuedUntil(db, t, x)
  {
    var w := SignRequest(db, cur, sig);
    assert forall r :: r in w.requests <==> r in db.requests;
    assert forall r :: r in db.requests ==>
             (IssuedFor(db.requests[r], t) <==> IssuedFor(w.requests[r], t)) && w.requests[r].expiresAt == db.requests[r].expiresAt;
  }

  /** The confirmed request was its trade's only issued one. */
  lemma ConfirmedIssued(db: Db, cur: RequestId, sig: Signature, t: TradeId, x: Time)
    requires OneIssued(db.requests) && CanConfirm(db, cur)
    ensures IssuedUntil(ConfirmRequest(db, cur, sig), t, x) <==> db.requests[cur].trade != t && IssuedUntil(db, t, x)
  {
    var w := ConfirmRequest(db, cur, sig);
    if IssuedUntil(w, t, x) {
      var r :| r in w.requests && IssuedFor(w.requests[r], t) && w.requests[r].expiresAt == x;
      assert r != cur && r in db.requests && db.requests[r] == w.requests[r];
    }
    if db.requests[cur].trade != t && IssuedUntil(db, t, x) {
      var r :| r in db.requests && IssuedFor(db.requests[r], t) && db.requests[r].expiresAt == x;
      assert r in w.requests && w.requests[r] == db.requests[r];
    }
  }

  lemma SameRequestsIssued(v: Db, w: Db, t: TradeId, x: Time)
    requires v.requests == w.requests
    ensures IssuedUntil(v, t, x) <==> IssuedUntil(w, t, x)
  {
  }

  predicate WritesRequest(f: Frame)
  {
    || (f.Leave? && f.leaving.Building?)
    || (f.Settle? && (f.settling.Signing? || f.settling.Confirming? || f.settling.Lapsing? || f.settling.Withdrawing?
                      || f.settling.Superseding?))
  }

  lemma RequestsTouched(cfg: Config, db: Db, now: Time, cluster: Cluster, f: Frame, e: Env)
    requires Ready(cfg, db, now, f, e) && !WritesRequest(f)
    ensures Advance(cfg, db, now, cluster, f, e).db.requests == db.requests
  {
    hide Begun, IsBatch, Judge, Apply, HasEntry;
    match f
    case Open(o) =>
    case Agree(a) =>
    case Leave(l) =>
    case Settle(s) => hide OpenReady;
    case Sweep(s) =>
    case Move(m) =>
    case Stamp(p) =>
    case Returned(_) =>
  }

  lemma BuildingIssued(cfg: Config, w: World, l: Leaving, e: Env, t: TradeId, x: Time)
    requires l.Building? && LeaveReady(w.db, l, e)
    ensures IssuedUntil(AdvanceLeave(cfg, w.db, w.now, w.cluster, l, e).db, t, x)
            <==> if t == l.tr.id then x == e.expiresAt else IssuedUntil(w.db, t, x)
  {
    hide Apply, IssuedUntil, CreateRequest;
    CreatedIssued(w.db, NewRequest(l.tr, w.cluster, l.at, e), t, x);
  }

  lemma SettlingIssued(cfg: Config, w: World, s: Settling, e: Env, t: TradeId, x: Time)
    requires SettleReady(w.db, s, e) && SettleOk(cfg, w, s) && OneIssued(w.db.requests) && WritesRequest(Settle(s))
    ensures IssuedUntil(AdvanceSettle(cfg, w.db, w.now, w.cluster, s, e).db, t, x)
            <==> IssuedUntil(w.db, t, x) && !Retiring(w.db, Settle(s), t)
  {
    hide Apply, IssuedUntil, ExpireRequests, OneIssued, List, Pending, Proven, Evidence;
    match s
    case Signing(tr, sig, list, cur) => SignedIssued(w.db, cur, sig, t, x);
    case Confirming(tr, sig, list, cur) =>
      if CanConfirm(w.db, cur) { ConfirmedIssued(w.db, cur, sig, t, x); } else { SameRequestsIssued(w.db, w.db, t, x); }
    case _ => ExpiredIssued(w.db, s.tr.id, t, x);
  }

  /** One step of any call: a trade has an issued request with this expiry exactly when the
      step inserted it, or it was there and the step did not retire it. */
  lemma FrameIssued(cfg: Config, w: World, f: Frame, e: Env, t: TradeId, x: Time)
    requires OneIssued(w.db.requests) && FrameOk(cfg, w, f) && Ready(cfg, w.db, w.now, f, e)
    ensures IssuedUntil(Advance(cfg, w.db, w.now, w.cluster, f, e).db, t, x)
            <==> (Inserting(f, t) && e.expiresAt == x) || (IssuedUntil(w.db, t, x) && !Retiring(w.db, f, t))
  {
    hide IssuedUntil, AdvanceLeave, AdvanceSettle, LeaveReady, SettleReady, OneIssued, SettleOk, LeaveOk;
    if !WritesRequest(f) {
      RequestsTouched(cfg, w.db, w.now, w.cluster, f, e);
      hide Advance, Ready, FrameOk;
      SameRequestsIssued(w.db, Advance(cfg, w.db, w.now, w.cluster, f, e).db, t, x);
    } else if f.Leave? {
      BuildingIssued(cfg, w, f.leaving, e, t, x);
    } else {
      SettlingIssued(cfg, w, f.settling, e, t, x);
    }
  }

  lemma IssuedStep(cfg: Config, s: State, step: Step, t: TradeId, x: Time)
    requires Inv(cfg, s) && Enabled(cfg, s, step)
    ensures IssuedUntil(Next(cfg, s, step).db, t, x)
            <==> Inserts(s, step, t, x) || (IssuedUntil(s.db, t, x) && !Retires(s, step, t))
  {
    hide IssuedUntil, Retiring, Inserting, FrameOk, Ready, Advance, NextLock, TradesOk, AcceptancesOk, SettlementOk, ChainOk,
         LedgerOk, ReceiptsOk, RequestRowsOk, LockOk, OneIssued;
    if step.Run? { FrameIssued(cfg, WorldOf(s), s.calls[step.c], step.e, t, x); }
  }

  /** The last word on this trade's requests before step n was step i's insert. */
  ghost predicate InsertedLast(states: seq<State>, steps: seq<Step>, n: nat, i: nat, t: TradeId, x: Time)
    requires |states| == |steps| + 1 && n <= |steps|
  {
    && i < n && Inserts(states[i], steps[i], t, x)
    && forall k :: i < k < n ==> !Retires(states[k], steps[k], t)
  }

  lemma {:induction false} IssuedIffInserted(cfg: Config, states: seq<State>, steps: seq<Step>, n: nat, t: TradeId, x: Time)
    requires IsRun(cfg, states, steps) && n < |states|
    ensures IssuedUntil(states[n].db, t, x) <==> exists i :: InsertedLast(states, steps, n, i, t, x)
  {
    hide Inv, Enabled, Next, Inserts, Retires, IssuedUntil;
    if n == 0 {
      assert !IssuedUntil(states[0].db, t, x) by { NoneIssued(states[0].now, states[0].cluster, t, x); }
    } else {
      var m := n - 1;
      IssuedIffInserted(cfg, states, steps, m, t, x);
      Invariant(cfg, states, steps, m);
      IssuedStep(cfg, states[m], steps[m], t, x);
      if Inserts(states[m], steps[m], t, x) { assert InsertedLast(states, steps, n, m, t, x); }
      forall i | InsertedLast(states, steps, m, i, t, x) && !Retires(states[m], steps[m], t)
        ensures InsertedLast(states, steps, n, i, t, x)
      {
      }
      forall i | InsertedLast(states, steps, n, i, t, x) && i != m
        ensures InsertedLast(states, steps, m, i, t, x) && !Retires(states[m], steps[m], t)
      {
      }
    }
  }

  lemma NoneIssued(now: Time, cluster: Cluster, t: TradeId, x: Time)
    ensures !IssuedUntil(Init(now, cluster).db, t, x)
  {
  }

  // ---------------------------------------------------------------- finishing

  /** A pending compare-and-set that would finish the trade: the call has looked for the
      last time. */
  predicate Finishing(f: Frame, t: TradeId)
  {
    f.Move? && f.moving.Applying? && f.moving.tr.id == t && Finished(f.moving.to)
  }

  /** The step's compare-and-set lands and finishes the trade. */
  predicate Finishes(s: State, step: Step, t: TradeId)
  {
    && step.Run? && step.c in s.calls && Finishing(s.calls[step.c], t)
    && CasApplies(s.db, t, s.calls[step.c].moving.tr.state)
  }

  lemma FrameFinishes(cfg: Config, w: World, f: Frame, e: Env, t: TradeId)
    requires FrameOk(cfg, w, f) && Ready(cfg, w.db, w.now, f, e)
    ensures IsFinished(Advance(cfg, w.db, w.now, w.cluster, f, e).db, t)
            <==> IsFinished(w.db, t) || (Finishing(f, t) && CasApplies(w.db, t, f.moving.tr.state))
  {
    RowsTouched(cfg, w.db, w.now, w.cluster, f, e);
    if WritesTrade(f) {
      hide ContOk, Copy, HasRequest, Proven, AcceptedBy;
    } else {
      hide Advance, Ready, FrameOk;
    }
  }

  lemma FinishStep(cfg: Config, s: State, step: Step, t: TradeId)
    requires Inv(cfg, s) && Enabled(cfg, s, step)
    ensures IsFinished(Next(cfg, s, step).db, t) <==> IsFinished(s.db, t) || Finishes(s, step, t)
  {
    hide WorldOk, FrameOk, LockOk, Ready, Advance, NextLock, IsFinished, Finishing, CasApplies;
    if step.Run? { FrameFinishes(cfg, WorldOf(s), s.calls[step.c], step.e, t); }
  }

  lemma {:induction false} FinishedIffStep(cfg: Config, states: seq<State>, steps: seq<Step>, n: nat, t: TradeId)
    requires IsRun(cfg, states, steps) && n < |states|
    ensures IsFinished(states[n].db, t) <==> exists j :: 0 <= j < n && Finishes(states[j], steps[j], t)
  {
    hide Inv, Enabled, Next, Finishes;
    if n > 0 {
      FinishedIffStep(cfg, states, steps, n - 1, t);
      Invariant(cfg, states, steps, n - 1);
      FinishStep(cfg, states[n - 1], steps[n - 1], t);
    }
  }

  // ---------------------------------------------------------------- where a frame came from

  /** A build that has read its trade and has yet to insert its request. */
  predicate Underway(f: Frame, t: TradeId)
  {
    f.Leave? && f.leaving.tr.id == t && (f.leaving.Building? || (f.leaving.Spending? && f.leaving.build))
  }

  /** A build enters this state by reading the stored row, with settlement configured, and
      keeps that copy. */
  lemma UnderwayFrom(cfg: Config, w: World, f: Frame, e: Env, t: TradeId)
    requires TradesOk(w.db, w.now) && Ready(cfg, w.db, w.now, f, e)
    requires Underway(Advance(cfg, w.db, w.now, w.cluster, f, e).frame, t)
    ensures var tr := Advance(cfg, w.db, w.now, w.cluster, f, e).frame.leaving.tr;
            if f.Open? then cfg.settlement && t in w.db.trades && tr == w.db.trades[t]
            else Underway(f, t) && f.leaving.tr == tr
  {
    hide IsBatch, HasEntry, Judge;
    match f
    case Open(o) =>
    case Settle(s) => hide OpenReady; SettleNeverLeaves(cfg, w, s, e);
    case Leave(l) => hide HasLiveRequest, PastDeadline;
    case _ => hide OpenReady, SettleReady, AdvanceOpen, AdvanceSettle, AdvanceLeave;
  }

  lemma SettleNeverLeaves(cfg: Config, w: World, s: Settling, e: Env)
    requires SettleReady(w.db, s, e)
    ensures !AdvanceSettle(cfg, w.db, w.now, w.cluster, s, e).frame.Leave?
  {
  }

  /** A step of the system that is not this call's leaves its frame alone. */
  lemma FrameKept(cfg: Config, s: State, step: Step, c: CallId)
    requires Enabled(cfg, s, step) && c in Next(cfg, s, step).calls
    requires !Next(cfg, s, step).calls[c].Open? && !(step.Run? && step.c == c)
    ensures c in s.calls && s.calls[c] == Next(cfg, s, step).calls[c]
  {
    hide Ready, Advance, NextLock;
  }

  lemma RunFrame(cfg: Config, s: State, c: CallId, e: Env)
    requires Enabled(cfg, s, Run(c, e))
    ensures Ready(cfg, s.db, s.now, s.calls[c], e)
    ensures Next(cfg, s, Run(c, e)).calls[c] == Advance(cfg, s.db, s.now, s.cluster, s.calls[c], e).frame
    ensures Next(cfg, s, Run(c, e)).db == Advance(cfg, s.db, s.now, s.cluster, s.calls[c], e).db
  {
    hide Ready, Advance, NextLock;
  }

  lemma InvTrades(cfg: Config, s: State)
    requires Inv(cfg, s)
    ensures TradesOk(s.db, s.now) && OneIssued(s.db.requests) && RequestRowsOk(s.db)
  {
    hide AcceptancesOk, SettlementOk, ChainOk, LedgerOk, ReceiptsOk, FramesOk, LockOk;
  }

  lemma ClockRuns(cfg: Config, states: seq<State>, steps: seq<Step>, i: nat, j: nat)
    requires IsRun(cfg, states, steps) && i <= j < |states|
    ensures states[i].now <= states[j].now
    decreases j
  {
    hide Ready, Advance, NextLock;
    if i < j {
      ClockRuns(cfg, states, steps, i, j - 1);
      assert Enabled(cfg, states[j - 1], steps[j - 1]);
    }
  }

  /** Looking back from a build underway: it was underway already, or its trade has since
      been in the state it read. */
  lemma {:induction false} UnderwaySince(cfg: Config, states: seq<State>, steps: seq<Step>, j: nat, i: nat, d: CallId, t: TradeId)
    requires IsRun(cfg, states, steps) && j <= i < |states|
    requires d in states[i].calls && Underway(states[i].calls[d], t) && t in states[j].db.trades
    ensures (d in states[j].calls && Underway(states[j].calls[d], t))
            || Reaches(states[j].db.trades[t].state, states[i].calls[d].leaving.tr.state)
    decreases i
  {
    hide Inv, Enabled, Next, Underway, Reaches;
    if j < i {
      var s, step := states[i - 1], steps[i - 1];
      assert Enabled(cfg, s, step) && states[i] == Next(cfg, s, step);
      if step.Run? && step.c == d {
        UnderwayRun(cfg, states, steps, i - 1, d, t);
        if s.calls[d].Open? {
          TablesGrow(cfg, states, steps, j, i - 1);
          GrownRow(states[j].db, s.db, t);
        } else {
          UnderwaySince(cfg, states, steps, j, i - 1, d, t);
        }
      } else {
        assert !states[i].calls[d].Open? by { UnderwayIsLeave(states[i].calls[d], t); }
        FrameKept(cfg, s, step, d);
        UnderwaySince(cfg, states, steps, j, i - 1, d, t);
      }
    }
  }

  lemma UnderwayIsLeave(f: Frame, t: TradeId)
    requires Underway(f, t)
    ensures f.Leave?
  {
  }

  lemma GrownRow(v: Db, w: Db, t: TradeId)
    requires Grows(v, w) && t in v.trades
    ensures t in w.trades && Reaches(v.trades[t].state, w.trades[t].state)
  {
    hide RequestsGrow, Reaches;
  }

  lemma UnderwayRun(cfg: Config, states: seq<State>, steps: seq<Step>, k: nat, d: CallId, t: TradeId)
    requires IsRun(cfg, states, steps) && k < |steps| && steps[k].Run? && steps[k].c == d
    requires d in states[k + 1].calls && Underway(states[k + 1].calls[d], t)
    ensures d in states[k].calls
    ensures var f, tr := states[k].calls[d], states[k + 1].calls[d].leaving.tr;
            if f.Open? then cfg.settlement && t in states[k].db.trades && tr == states[k].db.trades[t]
            else Underway(f, t) && f.leaving.tr == tr
  {
    hide Inv, Next, Underway, TradesOk, Ready, Advance;
    var s := states[k];
    assert Enabled(cfg, s, steps[k]) && states[k + 1] == Next(cfg, s, steps[k]);
    Invariant(cfg, states, steps, k);
    InvTrades(cfg, s);
    RunFrame(cfg, s, d, steps[k].e);
    UnderwayFrom(cfg, WorldOf(s), s.calls[d], steps[k].e, t);
  }

  /** Builds run only where settlement is configured. */
  lemma {:induction false} UnderwaySettles(cfg: Config, states: seq<State>, steps: seq<Step>, i: nat, d: CallId, t: TradeId)
    requires IsRun(cfg, states, steps) && i < |states| && d in states[i].calls && Underway(states[i].calls[d], t)
    ensures cfg.settlement
  {
    hide Enabled, Next, Underway;
    if i > 0 {
      var s, step := states[i - 1], steps[i - 1];
      assert Enabled(cfg, s, step) && states[i] == Next(cfg, s, step);
      if step.Run? && step.c == d {
        UnderwayRun(cfg, states, steps, i - 1, d, t);
        if !s.calls[d].Open? { UnderwaySettles(cfg, states, steps, i - 1, d, t); }
      } else {
        assert !states[i].calls[d].Open? by { UnderwayIsLeave(states[i].calls[d], t); }
        FrameKept(cfg, s, step, d);
        UnderwaySettles(cfg, states, steps, i - 1, d, t);
      }
    }
  }

  /** A call's last look before it finishes a pending trade: nothing is live. */
  lemma LastLook(cfg: Config, w: World, f: Frame, e: Env)
    requires WorldOk(cfg, w) && FrameOk(cfg, w, f) && Ready(cfg, w.db, w.now, f, e) && cfg.settlement
    requires var g := Advance(cfg, w.db, w.now, w.cluster, f, e).frame;
             g.Move? && g.moving.Applying? && Finished(g.moving.to) && g.moving.tr.state == SettlementPending
    ensures var r := Advance(cfg, w.db, w.now, w.cluster, f, e); !HasLiveRequest(r.db, r.frame.moving.tr.id, w.now)
  {
    hide TradesOk, AcceptancesOk, RequestRowsOk, SettlementOk, ChainOk, LedgerOk, ReceiptsOk, HasLiveRequest, IsBatch, HasEntry,
         OneIssued;
    match f
    case Settle(s) =>
      hide Ready, FrameOk, Advance, DbOk;
      SettleLooks(cfg, w, s, e);
    case Leave(l) => hide OpenReady, SettleReady, AdvanceOpen, AdvanceSettle;
    case Open(o) => hide LeaveReady, SettleReady, AdvanceLeave, AdvanceSettle;
    case _ => hide OpenReady, LeaveReady, SettleReady, AdvanceOpen, AdvanceLeave, AdvanceSettle, FirstAcceptance;
  }

  lemma SettleLooks(cfg: Config, w: World, s: Settling, e: Env)
    requires WorldOk(cfg, w) && FrameOk(cfg, w, Settle(s)) && Ready(cfg, w.db, w.now, Settle(s), e)
    requires var g := Advance(cfg, w.db, w.now, w.cluster, Settle(s), e).frame;
             g.Move? && g.moving.Applying? && Finished(g.moving.to)
    ensures var r := Advance(cfg, w.db, w.now, w.cluster, Settle(s), e);
            !HasLiveRequest(r.db, r.frame.moving.tr.id, w.now)
  {
    hide TradesOk, AcceptancesOk, RequestRowsOk, SettlementOk, ChainOk, LedgerOk, ReceiptsOk, HasLiveRequest, HasIssued,
         List, Pending, Proven, Evidence, OneIssued, ExpireRequests;
    match s
    case Lapsing(tr) => ExpiredNoneIssued(w.db, tr.id); LiveIsIssued(ExpireRequests(w.db, tr.id), tr.id, w.now);
    case Superseding(tr, _) => ExpiredNoneIssued(w.db, tr.id); LiveIsIssued(ExpireRequests(w.db, tr.id), tr.id, w.now);
    case Confirming(tr, sig, _, cur) =>
      if CanConfirm(w.db, cur) {
        ConfirmedNoneIssued(w.db, cur, sig);
        LiveIsIssued(ConfirmRequest(w.db, cur, sig), tr.id, w.now);
      }
    case _ =>
  }

  // ---------------------------------------------------------------- the order of the two writes

  /** A step's own view of the calls that make it. */
  lemma StepFrame(cfg: Config, states: seq<State>, steps: seq<Step>, k: nat)
    requires IsRun(cfg, states, steps) && k < |steps| && steps[k].Run?
    ensures Inv(cfg, states[k]) && steps[k].c in states[k].calls && steps[k].c in states[k + 1].calls
    ensures Ready(cfg, states[k].db, states[k].now, states[k].calls[steps[k].c], steps[k].e)
    ensures var r := Advance(cfg, states[k].db, states[k].now, states[k].cluster, states[k].calls[steps[k].c], steps[k].e);
            states[k + 1].calls[steps[k].c] == r.frame && states[k + 1].db == r.db && states[k + 1].now == states[k].now
  {
    hide Inv, Ready, Advance, NextLock;
    Invariant(cfg, states, steps, k);
    assert Enabled(cfg, states[k], steps[k]) && states[k + 1] == Next(cfg, states[k], steps[k]);
    RunFrame(cfg, states[k], steps[k].c, steps[k].e);
  }

  lemma OtherFrame(cfg: Config, states: seq<State>, steps: seq<Step>, k: nat, c: CallId)
    requires IsRun(cfg, states, steps) && k < |steps| && !(steps[k].Run? && steps[k].c == c)
    requires c in states[k + 1].calls && !states[k + 1].calls[c].Open?
    ensures c in states[k].calls && states[k].calls[c] == states[k + 1].calls[c]
  {
    hide Enabled, Next;
    assert Enabled(cfg, states[k], steps[k]) && states[k + 1] == Next(cfg, states[k], steps[k]);
    FrameKept(cfg, states[k], steps[k], c);
  }

  /** The trade finished before the request was inserted: at the finish the build was
      underway, on the copy it had read. */
  lemma FinishedUnderBuild(cfg: Config, states: seq<State>, steps: seq<Step>, j: nat, i: nat, t: TradeId)
    requires IsRun(cfg, states, steps) && j < i < |steps|
    requires Finishes(states[j], steps[j], t) && steps[i].Run? && steps[i].c in states[i].calls
    requires Inserting(states[i].calls[steps[i].c], t)
    ensures steps[i].c in states[j].calls && Underway(states[j].calls[steps[i].c], t)
  {
    hide Inv, Ready, Advance;
    var d := steps[i].c;
    FinishedIffStep(cfg, states, steps, j + 1, t);
    UnderwaySince(cfg, states, steps, j + 1, i, d, t);
    BuildsUnfinished(cfg, states, steps, i, d, t);
    StepFrame(cfg, states, steps, j);
    if steps[j].c == d {
      MovesNeverLeave(cfg, WorldOf(states[j]), states[j].calls[d].moving, steps[j].e);
    } else {
      OtherFrame(cfg, states, steps, j, d);
    }
  }

  lemma MovesNeverLeave(cfg: Config, w: World, m: Moving, e: Env)
    requires m.Applying?
    ensures Ready(cfg, w.db, w.now, Move(m), e)
    ensures Advance(cfg, w.db, w.now, w.cluster, Move(m), e) == AdvanceMove(w.db, w.now, m)
    ensures AdvanceMove(w.db, w.now, m).frame.Move? && !AdvanceMove(w.db, w.now, m).frame.moving.Applying?
  {
  }

  /** A build works on a copy of an accepted or pending row of its trade. */
  lemma BuildsUnfinished(cfg: Config, states: seq<State>, steps: seq<Step>, i: nat, d: CallId, t: TradeId)
    requires IsRun(cfg, states, steps) && i < |states| && d in states[i].calls && Underway(states[i].calls[d], t)
    ensures var tr := states[i].calls[d].leaving.tr; Buildable(tr) && Copy(states[i].db, tr) && tr.id == t
  {
    hide Inv, Copy, Enabled, Next;
    Invariant(cfg, states, steps, i);
    UnderwayFacts(cfg, states[i], d, t);
  }

  lemma UnderwayFacts(cfg: Config, s: State, d: CallId, t: TradeId)
    requires Inv(cfg, s) && d in s.calls && Underway(s.calls[d], t)
    ensures Buildable(s.calls[d].leaving.tr) && Copy(s.db, s.calls[d].leaving.tr) && s.calls[d].leaving.tr.id == t
  {
    hide WorldOk, LockOk, Copy;
    assert FrameOk(cfg, WorldOf(s), s.calls[d]);
  }

  /** Looking back from a pending compare-and-set: it was pending already, or some step
      since put it there. */
  lemma {:induction false} PendingSince(cfg: Config, states: seq<State>, steps: seq<Step>, i: nat, j: nat, c: CallId, m: Moving)
    requires IsRun(cfg, states, steps) && i <= j < |states| && m.Applying?
    requires c in states[j].calls && states[j].calls[c] == Move(m)
    ensures (c in states[i].calls && states[i].calls[c] == Move(m))
            || exists a :: i <= a < j && steps[a].Run? && steps[a].c == c && c in states[a + 1].calls
                           && states[a + 1].calls[c] == Move(m)
    decreases j
  {
    hide Enabled, Next;
    if i < j {
      if steps[j - 1].Run? && steps[j - 1].c == c {
        assert c in states[j - 1 + 1].calls;
      } else {
        OtherFrame(cfg, states, steps, j - 1, c);
        PendingSince(cfg, states, steps, i, j - 1, c, m);
      }
    }
  }

  /** The request was inserted before a pending trade finished: by then the finishing call
      had looked for the last time. */
  lemma InsertedPastLastLook(cfg: Config, states: seq<State>, steps: seq<Step>, n: nat, i: nat, j: nat, t: TradeId, x: Time)
    requires IsRun(cfg, states, steps) && i < j < n < |states|
    requires InsertedLast(states, steps, n, i, t, x) && x > states[n].now
    requires Finishes(states[j], steps[j], t) && states[j].calls[steps[j].c].moving.tr.state == SettlementPending
    ensures steps[j].c in states[i].calls && states[i].calls[steps[j].c] == states[j].calls[steps[j].c]
  {
    hide Enabled, Next, Inserts, Retires;
    var c, m := steps[j].c, states[j].calls[steps[j].c].moving;
    PendingSince(cfg, states, steps, i, j, c, m);
    if !(c in states[i].calls && states[i].calls[c] == Move(m)) {
      var a :| i <= a < j && steps[a].Run? && steps[a].c == c && c in states[a + 1].calls && states[a + 1].calls[c] == Move(m);
      InsertingSettles(cfg, states, steps, i, t, x);
      LookedAt(cfg, states, steps, a, c, m);
      if a == i {
        InsertsPending(cfg, states, steps, i, t, x);
      } else {
        StillLive(cfg, states, steps, n, i, a + 1, t, x);
      }
      assert false;
    }
  }

  lemma InsertingSettles(cfg: Config, states: seq<State>, steps: seq<Step>, i: nat, t: TradeId, x: Time)
    requires IsRun(cfg, states, steps) && i < |steps| && Inserts(states[i], steps[i], t, x)
    ensures cfg.settlement
  {
    hide Enabled, Next;
    UnderwaySettles(cfg, states, steps, i, steps[i].c, t);
  }

  lemma LookedAt(cfg: Config, states: seq<State>, steps: seq<Step>, a: nat, c: CallId, m: Moving)
    requires IsRun(cfg, states, steps) && a < |steps| && steps[a].Run? && steps[a].c == c && cfg.settlement
    requires c in states[a + 1].calls && states[a + 1].calls[c] == Move(m)
    requires m.Applying? && Finished(m.to) && m.tr.state == SettlementPending
    ensures !HasLiveRequest(states[a + 1].db, m.tr.id, states[a + 1].now)
  {
    hide Enabled, Next, WorldOk, FrameOk, Ready, Advance, HasLiveRequest, Inv;
    StepFrame(cfg, states, steps, a);
    InvFrame(cfg, states[a], c);
    LastLook(cfg, WorldOf(states[a]), states[a].calls[c], steps[a].e);
  }

  lemma InvFrame(cfg: Config, s: State, c: CallId)
    requires Inv(cfg, s) && c in s.calls
    ensures WorldOk(cfg, WorldOf(s)) && FrameOk(cfg, WorldOf(s), s.calls[c])
  {
    hide DbOk, FrameOk, LockOk;
  }

  /** What follows an insert is the move to pending, or nothing. */
  lemma InsertsPending(cfg: Config, states: seq<State>, steps: seq<Step>, i: nat, t: TradeId, x: Time)
    requires IsRun(cfg, states, steps) && i < |steps| && Inserts(states[i], steps[i], t, x)
    ensures steps[i].c in states[i + 1].calls
    ensures var f := states[i + 1].calls[steps[i].c]; (states[i].calls[steps[i].c].leaving.tr.state == Accepted ==> Awaits(f, t))
    ensures states[i + 1].calls[steps[i].c].Move? && states[i + 1].calls[steps[i].c].moving.Applying? ==>
              states[i + 1].calls[steps[i].c].moving.to == SettlementPending
  {
    hide Enabled, Next, Inv;
    StepFrame(cfg, states, steps, i);
  }

  lemma StillLive(cfg: Config, states: seq<State>, steps: seq<Step>, n: nat, i: nat, k: nat, t: TradeId, x: Time)
    requires IsRun(cfg, states, steps) && i < k <= n < |states|
    requires InsertedLast(states, steps, n, i, t, x) && x > states[n].now
    ensures IssuedUntil(states[k].db, t, x) && HasLiveRequest(states[k].db, t, states[k].now)
  {
    hide Enabled, Next, Inserts, Retires, IssuedUntil, HasLiveRequest;
    assert InsertedLast(states, steps, k, i, t, x);
    IssuedIffInserted(cfg, states, steps, k, t, x);
    ClockRuns(cfg, states, steps, k, n);
    LiveIsIssuedUntil(states[k].db, t, states[k].now);
  }

  /** The request was inserted before an accepted trade finished: the build had yet to
      attempt its own move. */
  lemma InsertedAwaits(cfg: Config, states: seq<State>, steps: seq<Step>, i: nat, j: nat, t: TradeId, x: Time)
    requires IsRun(cfg, states, steps) && i < j < |steps| && Inserts(states[i], steps[i], t, x)
    requires t in states[j].db.trades && states[j].db.trades[t].state == Accepted
    ensures steps[i].c in states[j].calls && Awaits(states[j].calls[steps[i].c], t)
  {
    hide Enabled, Next, Copy;
    var d := steps[i].c;
    BuildsUnfinished(cfg, states, steps, i, d, t);
    var tr := states[i].calls[d].leaving.tr;
    CopyReaches(states[i].db, tr);
    AcceptedThroughout(cfg, states, steps, i, j, t);
    assert tr.state == Accepted;
    InsertsPending(cfg, states, steps, i, t, x);
    hide Awaits, Inserts;
    AwaitsUntil(cfg, states, steps, i + 1, j, d, t);
  }

  lemma CopyReaches(db: Db, tr: Trade)
    requires Copy(db, tr)
    ensures tr.id in db.trades && Reaches(tr.state, db.trades[tr.id].state)
  {
  }

  lemma AcceptedThroughout(cfg: Config, states: seq<State>, steps: seq<Step>, k: nat, j: nat, t: TradeId)
    requires IsRun(cfg, states, steps) && k <= j < |states| && t in states[k].db.trades
    requires t in states[j].db.trades && states[j].db.trades[t].state == Accepted
    ensures Reaches(states[k].db.trades[t].state, Accepted)
  {
    hide Enabled, Next, Reaches;
    TablesGrow(cfg, states, steps, k, j);
    GrownRow(states[k].db, states[j].db, t);
  }

  lemma FrameStays(cfg: Config, states: seq<State>, steps: seq<Step>, k: nat, c: CallId)
    requires IsRun(cfg, states, steps) && k < |steps| && !(steps[k].Run? && steps[k].c == c)
    requires c in states[k].calls
    ensures c in states[k + 1].calls && states[k + 1].calls[c] == states[k].calls[c]
  {
    hide Ready, Advance, NextLock;
    assert Enabled(cfg, states[k], steps[k]) && states[k + 1] == Next(cfg, states[k], steps[k]);
  }

  /** A build's move to pending lands on a trade that is still accepted. */
  lemma AwaitLands(cfg: Config, states: seq<State>, steps: seq<Step>, k: nat, j: nat, d: CallId, t: TradeId)
    requires IsRun(cfg, states, steps) && k < j < |states| && steps[k].Run? && steps[k].c == d
    requires d in states[k].calls && Awaits(states[k].calls[d], t)
    requires t in states[j].db.trades && states[j].db.trades[t].state == Accepted
    ensures t in states[k + 1].db.trades && states[k + 1].db.trades[t].state == SettlementPending
  {
    hide Enabled, Next, Inv, Ready, Advance, WorldOk, Copy;
    StepFrame(cfg, states, steps, k);
    InvFrame(cfg, states[k], d);
    var m := states[k].calls[d].moving;
    MovesNeverLeave(cfg, WorldOf(states[k]), m, steps[k].e);
    CopyReaches(states[k].db, m.tr);
    AcceptedThroughout(cfg, states, steps, k, j, t);
  }

  lemma PendingIsPastAccepted()
    ensures !Reaches(SettlementPending, Accepted)
  {
  }

  lemma {:induction false} AwaitsUntil(cfg: Config, states: seq<State>, steps: seq<Step>, k: nat, j: nat, d: CallId, t: TradeId)
    requires IsRun(cfg, states, steps) && k <= j < |states| && d in states[k].calls && Awaits(states[k].calls[d], t)
    requires t in states[j].db.trades && states[j].db.trades[t].state == Accepted
    ensures d in states[j].calls && Awaits(states[j].calls[d], t)
    decreases j - k
  {
    hide Enabled, Next, Reaches;
    if k < j {
      if steps[k].Run? && steps[k].c == d {
        AwaitLands(cfg, states, steps, k, j, d, t);
        AcceptedThroughout(cfg, states, steps, k + 1, j, t);
        PendingIsPastAccepted();
      } else {
        FrameStays(cfg, states, steps, k, d);
        AwaitsUntil(cfg, states, steps, k + 1, j, d, t);
      }
    }
  }

  /** A live request and a finish, each by its own step, with nothing retiring the request
      since, and with one of the two calls caught between its last look and its write:
      either the build was underway when the trade finished, or the finishing call had
      looked for the last time when the request was inserted, or the build had inserted its
      request and had yet to move the trade when it finished. */
  ghost predicate Clash(states: seq<State>, steps: seq<Step>, n: nat, i: nat, j: nat, t: TradeId)
    requires |states| == |steps| + 1 && n <= |steps|
  {
    && (exists x: Time :: x > states[n].now && InsertedLast(states, steps, n, i, t, x))
    && j < n && Finishes(states[j], steps[j], t)
    && InFlight(states, steps, i, j, t)
  }

  predicate InFlight(states: seq<State>, steps: seq<Step>, i: nat, j: nat, t: TradeId)
    requires |states| == |steps| + 1 && i < |steps| && j < |steps| && steps[i].Run? && steps[j].Run?
  {
    var build, finish := steps[i].c, steps[j].c;
    if j < i then build in states[j].calls && Underway(states[j].calls[build], t)
    else
      || (finish in states[i].calls && Finishing(states[i].calls[finish], t))
      || (build in states[j].calls && Awaits(states[j].calls[build], t))
  }

  lemma OrderOfWrites(cfg: Config, states: seq<State>, steps: seq<Step>, n: nat, i: nat, j: nat, t: TradeId, x: Time)
    requires IsRun(cfg, states, steps) && n < |states| && j < n
    requires InsertedLast(states, steps, n, i, t, x) && x > states[n].now && Finishes(states[j], steps[j], t)
    ensures InFlight(states, steps, i, j, t)
  {
    hide Enabled, Next, Inserting, Underway, Awaits;
    if j < i {
      FinishedUnderBuild(cfg, states, steps, j, i, t);
    } else if j == i {
      InsertingIsLeave(states[i].calls[steps[i].c], t);
      assert false;
    } else {
      var m := states[j].calls[steps[j].c].moving;
      FinishableIs(cfg, states, steps, j, t);
      StillLive(cfg, states, steps, n, i, j, t, x);
      if m.tr.state == SettlementPending {
        InsertedPastLastLook(cfg, states, steps, n, i, j, t, x);
      } else if m.tr.state == Accepted {
        InsertedAwaits(cfg, states, steps, i, j, t, x);
      } else {
        NoneBeforeAccepted(cfg, states, steps, j, t, x);
        assert false;
      }
    }
  }

  lemma InsertingIsLeave(f: Frame, t: TradeId)
    requires Inserting(f, t)
    ensures f.Leave?
  {
  }

  /** A trade finishes from an open, accepted or pending state. */
  lemma FinishableIs(cfg: Config, states: seq<State>, steps: seq<Step>, j: nat, t: TradeId)
    requires IsRun(cfg, states, steps) && j < |steps| && Finishes(states[j], steps[j], t)
    ensures var m := states[j].calls[steps[j].c].moving;
            m.tr.state in {Proposed, Negotiating, Accepted, SettlementPending}
            && t in states[j].db.trades && states[j].db.trades[t].state == m.tr.state
  {
    hide Enabled, Next, Inv, WorldOk, Copy, Ready, Advance;
    StepFrame(cfg, states, steps, j);
    InvFrame(cfg, states[j], steps[j].c);
  }

  lemma NoneBeforeAccepted(cfg: Config, states: seq<State>, steps: seq<Step>, j: nat, t: TradeId, x: Time)
    requires IsRun(cfg, states, steps) && j < |states| && IssuedUntil(states[j].db, t, x)
    ensures t in states[j].db.trades && states[j].db.trades[t].state !in {Proposed, Negotiating}
  {
    hide Enabled, Next, Inv;
    Invariant(cfg, states, steps, j);
    InvTrades(cfg, states[j]);
    var r :| r in states[j].db.requests && IssuedFor(states[j].db.requests[r], t);
  }

  /** Over every run: a finished trade holds a live request exactly when a build and a
      finishing call clashed on it. */
  lemma HeldExactly(cfg: Config, states: seq<State>, steps: seq<Step>, n: nat, t: TradeId)
    requires IsRun(cfg, states, steps) && n < |states|
    ensures FinishedHoldsLive(states[n], t) <==> exists i, j :: Clash(states, steps, n, i, j, t)
  {
    hide Enabled, Next, IsFinished, HasLiveRequest, IssuedUntil, InsertedLast, Finishes, InFlight;
    LiveIsIssuedUntil(states[n].db, t, states[n].now);
    FinishedIffStep(cfg, states, steps, n, t);
    forall x: Time ensures IssuedUntil(states[n].db, t, x) <==> exists i :: InsertedLast(states, steps, n, i, t, x) {
      IssuedIffInserted(cfg, states, steps, n, t, x);
    }
    if FinishedHoldsLive(states[n], t) {
      var x: Time :| x > states[n].now && IssuedUntil(states[n].db, t, x);
      var i :| InsertedLast(states, steps, n, i, t, x);
      var j :| 0 <= j < n && Finishes(states[j], steps[j], t);
      OrderOfWrites(cfg, states, steps, n, i, j, t, x);
      assert Clash(states, steps, n, i, j, t);
    }
    forall i, j | Clash(states, steps, n, i, j, t) ensures FinishedHoldsLive(states[n], t) {
      var x: Time :| x > states[n].now && InsertedLast(states, steps, n, i, t, x);
      assert IssuedUntil(states[n].db, t, x);
    }
  }

  /** One step makes a finished trade hold a live request exactly when it inserts one on a
      row that has finished already, or finishes a row that holds one: two conditions the
      two transactions could test, and do not. */
  lemma BecomesHeld(cfg: Config, s: State, step: Step, t: TradeId)
    requires Inv(cfg, s) && Enabled(cfg, s, step) && !FinishedHoldsLive(s, t)
    ensures FinishedHoldsLive(Next(cfg, s, step), t)
            <==> (IsFinished(s.db, t) && exists x: Time :: x > s.now && Inserts(s, step, t, x))
                 || (Finishes(s, step, t) && HasLiveRequest(s.db, t, s.now))
  {
    hide Inv, IsFinished, HasLiveRequest, IssuedUntil, Ready, Advance, NextLock, CasApplies;
    var w := Next(cfg, s, step);
    LiveIsIssuedUntil(s.db, t, s.now);
    LiveIsIssuedUntil(w.db, t, w.now);
    FinishStep(cfg, s, step, t);
    forall x: Time
      ensures IssuedUntil(w.db, t, x) <==> Inserts(s, step, t, x) || (IssuedUntil(s.db, t, x) && !Retires(s, step, t))
    {
      IssuedStep(cfg, s, step, t, x);
    }
    assert s.now <= w.now && (step.Run? ==> s.now == w.now);
    hide Next, Enabled;
  }

  /** In flight from its first read of the trade to its last write about it. */
  predicate BuildInFlight(f: Frame, t: TradeId) { Underway(f, t) || Awaits(f, t) }

  predicate FinishInFlight(f: Frame, t: TradeId)
  {
    match f
    case Leave(l) => l.tr.id == t && (l.Spending? ==> !l.build) && !l.Building?
    case Settle(s) => s.tr.id == t
    case Sweep(Loading(_, loaded, _)) => exists i :: 0 <= i < |loaded| && loaded[i].id == t
    case Sweep(Expiring(rest, _)) => exists i :: 0 <= i < |rest| && rest[i].id == t
    case Move(_) => Finishing(f, t)
    case _ => false
  }

  ghost predicate Overlaps(s: State, t: TradeId)
  {
    exists c, d :: c in s.calls && d in s.calls && FinishInFlight(s.calls[c], t) && BuildInFlight(s.calls[d], t)
  }

  /** However calls interleave, a trade holds no live request once finished unless a build
      of it and a call finishing it were in flight at one moment. */
  lemma NoOverlapNoLiveRequest(cfg: Config, states: seq<State>, steps: seq<Step>, n: nat, t: TradeId)
    requires IsRun(cfg, states, steps) && n < |states|
    requires forall k :: 0 <= k < n ==> !Overlaps(states[k], t)
    ensures !FinishedHoldsLive(states[n], t)
  {
    hide Enabled, Next, FinishedHoldsLive, InsertedLast, Inserts, Overlaps, Finishing, Underway, Awaits;
    HeldExactly(cfg, states, steps, n, t);
    if FinishedHoldsLive(states[n], t) {
      var i, j :| Clash(states, steps, n, i, j, t);
      ClashOverlaps(cfg, states, steps, n, i, j, t);
    }
  }

  lemma ClashOverlaps(cfg: Config, states: seq<State>, steps: seq<Step>, n: nat, i: nat, j: nat, t: TradeId)
    requires IsRun(cfg, states, steps) && n < |states| && Clash(states, steps, n, i, j, t)
    ensures i < n && j < n && (Overlaps(states[i], t) || Overlaps(states[j], t))
  {
    hide Enabled, Next;
    var build, finish := steps[i].c, steps[j].c;
    assert build in states[i].calls && BuildInFlight(states[i].calls[build], t);
    assert finish in states[j].calls && FinishInFlight(states[j].calls[finish], t);
  }
}
