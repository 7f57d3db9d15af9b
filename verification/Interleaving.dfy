/** The induction over interleavings: a step of any one call keeps the table invariants,
    its own assertion and, because assertions are stable, everyone else's. */
module Interleaving {
  import opened Options
  import opened Domain
  import opened Tables
  import opened Protocol
  import opened Safety
  import opened Transactions

  ghost predicate WorldOk(cfg: Config, w: World) { DbOk(cfg, w.db, w.now, w.landed) }

  /** The world one step leaves, with what the chain showed it. */
  ghost function After(w: World, r: Effect, shown: set<(Signature, Transaction)>): World
  {
    w.(db := r.db, landed := w.landed + shown)
  }

  /** What one step owes: invariants kept, tables grown, its own next assertion. */
  ghost predicate StepOk(cfg: Config, w: World, r: Effect, shown: set<(Signature, Transaction)>)
  {
    && WorldOk(cfg, After(w, r, shown)) && Later(w, After(w, r, shown))
    && FrameOk(cfg, After(w, r, shown), r.frame)
  }

  // ---------------------------------------------------------------- small facts

  /** The step only read. */
  lemma ReadStep(cfg: Config, w: World, next: Frame)
    requires WorldOk(cfg, w) && FrameOk(cfg, w, next)
    ensures StepOk(cfg, w, Effect(w.db, next), {})
  {
    hide DbOk, FrameOk;
    GrowsRefl(w.db);
    hide Grows;
    assert After(w, Effect(w.db, next), {}) == w;
  }

  /** The step wrote, and issued no request for another cluster. */
  lemma WriteStep(cfg: Config, w: World, db: Db, next: Frame)
    requires DbOk(cfg, db, w.now, w.landed) && Grows(w.db, db)
    requires forall r :: r in db.requests && r !in w.db.requests ==> db.requests[r].cluster == w.cluster
    requires FrameOk(cfg, w.(db := db), next)
    ensures StepOk(cfg, w, Effect(db, next), {})
  {
    hide DbOk, FrameOk, Grows;
    assert After(w, Effect(db, next), {}) == w.(db := db);
  }

  lemma ApplyFrame(cfg: Config, w: World, tr: Trade, actor: Actor, to: TradeState, override: Option<EventType>, cont: Cont)
    requires Copy(w.db, tr) && ContOk(w, tr.id, cont)
    requires to == Accepted ==> AcceptedBy(w.db, tr, w.now)
    requires to == SettlementPending ==> tr.mode == Onchain && HasRequest(w.db, tr.id)
    requires to == Settled ==>
               tr.mode == Onchain && cont.ThenLedger? && cont.sig.Some? && Proven(cfg, w.landed, tr, cont.sig.value)
    requires cont.ThenLedger? && cont.sig.None? ==> to == Recorded
    ensures FrameOk(cfg, w, Apply(tr, actor, to, override, cont, w.now))
  {
    hide Copy, ContOk, AcceptedBy, HasRequest, Proven;
  }

  lemma FreshCopy(db: Db, now: Time, id: TradeId)
    requires TradesOk(db, now) && id in db.trades
    ensures Copy(db, db.trades[id]) && db.trades[id].id == id
  {
  }

  /** Two distinct parties both accepted when two acceptors are counted. */
  lemma TwoAcceptors(db: Db, tr: Trade)
    requires |Acceptors(db, tr)| >= 2
    ensures BothAccepted(db, tr)
  {
    var s := Acceptors(db, tr);
    if !BothAccepted(db, tr) {
      var one := if (tr.id, tr.buyer) in db.acceptances then tr.buyer else tr.seller;
      assert s <= {one};
      SubsetSize(s, {one});
    }
  }

  lemma {:induction false} SubsetSize<T>(a: set<T>, b: set<T>)
    requires a <= b
    ensures |a| <= |b|
  {
    if a != {} {
      var x :| x in a;
      SubsetSize(a - {x}, b - {x});
    }
  }

  lemma RequestListIsCurrent(w: World, id: TradeId)
    ensures List(w, id, RequestsOf(w.db, id))
  {
  }

  lemma HasRequestIsListed(db: Db, id: TradeId)
    requires HasRequest(db, id)
    ensures RequestsOf(db, id) != map[]
  {
    var r :| r in db.requests && db.requests[r].trade == id;
    assert r in RequestsOf(db, id);
  }

  // ---------------------------------------------------------------- opening a call

  /** A pending copy means the stored trade is on-chain and has a request. */
  lemma PendingCopy(cfg: Config, w: World, tr: Trade)
    requires WorldOk(cfg, w) && tr.id in w.db.trades && tr == w.db.trades[tr.id]
    requires tr.state == SettlementPending
    ensures Pending(w, tr)
  {
    hide TradesOk, AcceptancesOk, RequestsOk, ChainOk, LedgerOk, ReceiptsOk;
  }

  lemma BegunMove(cfg: Config, w: World, cmd: Command, tr: Trade)
    requires Copy(w.db, tr) && (cmd.Begin? || cmd.Dispute? || cmd.Resolve?)
    ensures FrameOk(cfg, w, Begun(cfg, cmd, tr, w.now))
  {
    hide Copy, Apply, FrameOk;
    ReturnedOk(cfg, w, Refused);
    ReturnedOk(cfg, w, OkTrade(tr));
    match cmd
    case Begin(actor, _) => ApplyFrame(cfg, w, tr, Some(actor), Negotiating, None, Return);
    case Dispute(actor, _) => ApplyFrame(cfg, w, tr, Some(actor), Disputed, None, Return);
    case Resolve(_) => ApplyFrame(cfg, w, tr, None, Resolved, Some(EventResolved), Return);
  }

  lemma ReturnedOk(cfg: Config, w: World, out: Outcome)
    requires ResultOk(w, out)
    ensures FrameOk(cfg, w, Returned(out))
  {
  }

  lemma BegunOk(cfg: Config, w: World, cmd: Command, id: TradeId)
    requires WorldOk(cfg, w) && id in w.db.trades
    requires !cmd.Create? && !cmd.SweepAccepted? && !cmd.SweepOpen?
    ensures FrameOk(cfg, w, Begun(cfg, cmd, w.db.trades[id], w.now))
  {
    hide TradesOk, AcceptancesOk, RequestsOk, SettlementOk, ChainOk, LedgerOk, ReceiptsOk, Copy, HasRequest;
    var tr := w.db.trades[id];
    FreshCopy(w.db, w.now, id);
    if tr.state == SettlementPending { PendingCopy(cfg, w, tr); }
    if cmd.Begin? || cmd.Dispute? || cmd.Resolve? {
      BegunMove(cfg, w, cmd, tr);
    }
  }

  lemma KeyHolder(cfg: Config, w: World, f: Frame)
    requires WorldOk(cfg, w)
    requires f.Returned? && f.out.OkTrade? && exists t :: t in w.db.trades && w.db.trades[t] == f.out.tr
    ensures FrameOk(cfg, w, f)
  {
    hide AcceptancesOk, RequestsOk, SettlementOk, ChainOk, LedgerOk, ReceiptsOk, Copy;
    var t :| t in w.db.trades && w.db.trades[t] == f.out.tr;
    FreshCopy(w.db, w.now, t);
  }

  lemma StartStep(cfg: Config, w: World, cmd: Command, e: Env)
    requires WorldOk(cfg, w) && OpenReady(cfg, w.db, w.now, Start(cmd), e)
    ensures StepOk(cfg, w, AdvanceOpen(cfg, w.db, w.now, Start(cmd), e), {})
  {
    hide DbOk, Begun, IsBatch, StepOk;
    var r := AdvanceOpen(cfg, w.db, w.now, Start(cmd), e);
    assert FrameOk(cfg, w, r.frame) by {
      match cmd
      case Create(_, _, key) => if KeyTaken(w.db, key) { KeyHolder(cfg, w, r.frame); }
      case SweepAccepted(_) =>
      case SweepOpen(_) =>
      case _ => if cmd.id in w.db.trades { BegunOk(cfg, w, cmd, cmd.id); }
    }
    hide FrameOk;
    ReadStep(cfg, w, r.frame);
  }

  lemma OpenStep(cfg: Config, w: World, o: Opening, e: Env)
    requires WorldOk(cfg, w) && OpenOk(w, o) && OpenReady(cfg, w.db, w.now, o, e)
    ensures StepOk(cfg, w, AdvanceOpen(cfg, w.db, w.now, o, e), {})
  {
    hide DbOk, Begun, IsBatch, StepOk, Grows, Copy, OpenReady;
    var r := AdvanceOpen(cfg, w.db, w.now, o, e);
    match o
    case Start(cmd) => StartStep(cfg, w, cmd, e);
    case CreateInsert(tr, _) =>
      InsertKeeps(cfg, w.db, w.now, w.landed, tr);
      if CanInsert(w.db, tr) { InsertedCopy(w.db, tr); }
      WriteStep(cfg, w, r.db, r.frame);
    case CreateLog(tr, actor, at) =>
      EventKeeps(cfg, w.db, w.now, w.landed, Event(tr.id, Some(actor), EventProposed, None, Proposed, at));
      SameTradesCopy(w.db, r.db, tr);
      WriteStep(cfg, w, r.db, r.frame);
    case _ => ReadStep(cfg, w, r.frame);
  }

  lemma SameTradesCopy(v: Db, w: Db, tr: Trade)
    requires Copy(v, tr) && v.trades == w.trades
    ensures Copy(w, tr)
  {
  }

  lemma InsertedCopy(db: Db, tr: Trade)
    requires CanInsert(db, tr)
    ensures Copy(InsertTrade(db, tr), tr)
  {
  }

  // ---------------------------------------------------------------- accepting

  lemma AgreeStep(cfg: Config, w: World, a: Agreeing)
    requires WorldOk(cfg, w) && AgreeOk(w, a)
    ensures StepOk(cfg, w, AdvanceAgree(w.db, w.now, a), {})
  {
    hide TradesOk, AcceptancesOk, RequestsOk, SettlementOk, ChainOk, LedgerOk, ReceiptsOk, StepOk, Grows, Apply;
    var r := AdvanceAgree(w.db, w.now, a);
    match a
    case AcceptInsert(tr, actor, at) =>
      AcceptanceKeeps(cfg, w.db, w.now, w.landed, tr.id, actor, at);
      WriteStep(cfg, w, r.db, r.frame);
    case AcceptReturn(id) =>
      FreshCopy(w.db, w.now, id);
      ReadStep(cfg, w, r.frame);
    case AcceptRow(id, actor) =>
      FreshCopy(w.db, w.now, id);
      ReadStep(cfg, w, r.frame);
    case AcceptCount(row, actor) => AcceptCountStep(cfg, w, row, actor);
  }

  lemma AcceptCountStep(cfg: Config, w: World, row: Trade, actor: AgentId)
    requires WorldOk(cfg, w) && Copy(w.db, row)
    ensures StepOk(cfg, w, AdvanceAgree(w.db, w.now, AcceptCount(row, actor)), {})
  {
    hide TradesOk, RequestsOk, SettlementOk, ChainOk, LedgerOk, ReceiptsOk, StepOk, Grows, Apply, FrameOk;
    var r := AdvanceAgree(w.db, w.now, AcceptCount(row, actor));
    if |Acceptors(w.db, row)| >= 2 {
      TwoAcceptors(w.db, row);
      assert AcceptedBy(w.db, row, w.now);
      hide AcceptancesOk, Acceptors, Copy;
      ApplyFrame(cfg, w, row, Some(actor), Accepted, None, Return);
    } else {
      ReturnedOk(cfg, w, OkTrade(row));
    }
    ReadStep(cfg, w, r.frame);
  }

  // ---------------------------------------------------------------- leaving accepted

  lemma LeaveStep(cfg: Config, w: World, l: Leaving, e: Env)
    requires WorldOk(cfg, w) && LeaveOk(w, l) && LeaveReady(w.db, l, e)
    ensures StepOk(cfg, w, AdvanceLeave(cfg, w.db, w.now, w.cluster, l, e), {})
  {
    if l.Building? {
      BuildingStep(cfg, w, l.tr, l.actor, l.at, e);
    } else {
      hide DbOk, Copy, Apply, StepOk, FrameOk, PastDeadline, HasLiveRequest;
      var r := AdvanceLeave(cfg, w.db, w.now, w.cluster, l, e);
      ReturnedOk(cfg, w, Refused);
      LeaveFrames(cfg, w, l.tr, l.actor);
      ApplyFrame(cfg, w, l.tr, Some(l.actor), Cancelled, None, Return);
      ApplyFrame(cfg, w, l.tr, Some(l.actor), Recorded, None, ThenLedger(None));
      ReadStep(cfg, w, r.frame);
    }
  }

  lemma LeaveFrames(cfg: Config, w: World, tr: Trade, actor: AgentId)
    requires Copy(w.db, tr)
    ensures FrameOk(cfg, w, Leave(CancelDeadline(tr, actor)))
    ensures Buildable(tr) ==> FrameOk(cfg, w, Leave(Building(tr, actor, w.now)))
  {
    hide Copy;
  }

  /** A build may supersede for a copy gone stale, but only for a trade that was accepted. */
  lemma BuildingStep(cfg: Config, w: World, tr: Trade, actor: AgentId, at: Time, e: Env)
    requires WorldOk(cfg, w) && Copy(w.db, tr) && Buildable(tr) && e.freshId !in w.db.requests
    ensures StepOk(cfg, w, AdvanceLeave(cfg, w.db, w.now, w.cluster, Building(tr, actor, at), e), {})
  {
    hide DbOk, Apply, StepOk, FrameOk, HasRequest;
    var r := NewRequest(tr, w.cluster, at, e);
    var v := w.(db := CreateRequest(w.db, r));
    CreateRequestKeeps(cfg, w.db, w.now, w.landed, r);
    CreatedRequest(w.db, r);
    CopyStable(w.db, v.db, tr);
    hide Grows, Copy, Reaches;
    if tr.state == Accepted {
      ApplyFrame(cfg, v, tr, Some(actor), SettlementPending, None, ThenRequest(r));
    } else {
      ReturnedOk(cfg, v, OkRequest(r));
    }
    WriteStep(cfg, w, v.db, AdvanceLeave(cfg, w.db, w.now, w.cluster, Building(tr, actor, at), e).frame);
  }

  lemma CreatedRequest(db: Db, r: Request)
    requires r.id !in db.requests && r.status == Issued && r.signature == None
    ensures HasRequest(CreateRequest(db, r), r.trade)
    ensures forall q :: q in CreateRequest(db, r).requests && q !in db.requests ==> q == r.id
    ensures CreateRequest(db, r).requests[r.id] == r && RequestGrows(r, r)
  {
    var w := CreateRequest(db, r);
    assert r.id in w.requests && w.requests[r.id].trade == r.trade;
  }

  // ---------------------------------------------------------------- settling

  /** Expiring a trade's requests leaves every pending copy as it was. */
  lemma ExpiredWorld(cfg: Config, w: World, tr: Trade)
    requires WorldOk(cfg, w) && Pending(w, tr)
    ensures var v := w.(db := ExpireRequests(w.db, tr.id));
            WorldOk(cfg, v) && Grows(w.db, v.db) && Pending(v, tr) && v.db.requests.Keys == w.db.requests.Keys
  {
    hide DbOk, Copy, HasRequest;
    var v := w.(db := ExpireRequests(w.db, tr.id));
    ExpireKeeps(cfg, w.db, w.now, w.landed, tr.id);
    CopyStable(w.db, v.db, tr);
    HasRequestStable(w.db, v.db, tr.id);
  }

  /** The evidence a settlement goes to the ledger with. */
  lemma SettledFrame(cfg: Config, w: World, tr: Trade, sig: Signature)
    requires Pending(w, tr) && Evidence(w.db, tr.id, sig, w.cluster) && Proven(cfg, w.landed, tr, sig)
    ensures FrameOk(cfg, w, Apply(tr, Some(tr.buyer), Settled, None, ThenLedger(Some(sig)), w.now))
  {
    hide FrameOk, Apply, Proven, HasRequest, Evidence;
    ApplyFrame(cfg, w, tr, Some(tr.buyer), Settled, None, ThenLedger(Some(sig)));
  }

  lemma LapsingStep(cfg: Config, w: World, tr: Trade)
    requires WorldOk(cfg, w) && Pending(w, tr)
    ensures var v := w.(db := ExpireRequests(w.db, tr.id));
            StepOk(cfg, w, Effect(v.db, Apply(tr, None, Cancelled, Some(EventExpired), Return, w.now)), {})
    ensures StepOk(cfg, w, Effect(ExpireRequests(w.db, tr.id), Returned(Refused)), {})
  {
    hide DbOk, FrameOk, Apply, StepOk, Copy, HasRequest, Grows;
    var v := w.(db := ExpireRequests(w.db, tr.id));
    ExpiredWorld(cfg, w, tr);
    ApplyFrame(cfg, v, tr, None, Cancelled, Some(EventExpired), Return);
    ReturnedOk(cfg, v, Refused);
    WriteStep(cfg, w, v.db, Apply(tr, None, Cancelled, Some(EventExpired), Return, w.now));
    WriteStep(cfg, w, v.db, Returned(Refused));
  }

  lemma SupersedingStep(cfg: Config, w: World, tr: Trade, sig: Signature)
    requires WorldOk(cfg, w) && Pending(w, tr)
    requires Evidence(w.db, tr.id, sig, w.cluster) && Proven(cfg, w.landed, tr, sig)
    ensures StepOk(cfg, w, Effect(ExpireRequests(w.db, tr.id),
                                  Apply(tr, Some(tr.buyer), Settled, None, ThenLedger(Some(sig)), w.now)), {})
  {
    hide DbOk, FrameOk, Apply, StepOk, Pending, Proven, Evidence;
    var v := w.(db := ExpireRequests(w.db, tr.id));
    ExpiredWorld(cfg, w, tr);
    EvidenceStable(w.db, v.db, tr.id, sig, w.cluster);
    SettledFrame(cfg, v, tr, sig);
    WriteStep(cfg, w, v.db, Apply(tr, Some(tr.buyer), Settled, None, ThenLedger(Some(sig)), w.now));
  }

  /** Signing succeeds only on an issued request that carries no other signature. */
  lemma SigningStep(cfg: Config, w: World, tr: Trade, sig: Signature, list: map<RequestId, Request>, cur: RequestId)
    requires WorldOk(cfg, w) && Pending(w, tr) && List(w, tr.id, list) && Current(w, tr.id, cur)
    ensures StepOk(cfg, w, Effect(SignRequest(w.db, cur, sig),
             if CanSign(w.db, cur, sig) then Settle(Fetching(tr, sig, list, Some(cur), 1)) else Returned(Refused)), {})
  {
    hide DbOk, StepOk, Pending, List;
    var v := w.(db := SignRequest(w.db, cur, sig));
    SignKeeps(cfg, w.db, w.now, w.landed, cur, sig);
    LaterWithoutRequests(w, v);
    PendingStable(w, v, tr);
    ListStable(w, v, tr.id, list);
    hide Grows, Later;
    WriteStep(cfg, w, v.db, if CanSign(w.db, cur, sig) then Settle(Fetching(tr, sig, list, Some(cur), 1)) else Returned(Refused));
  }

  lemma LaterWithoutRequests(w: World, v: World)
    requires Grows(w.db, v.db) && v.now == w.now && v.cluster == w.cluster && w.landed <= v.landed
    requires v.db.requests.Keys <= w.db.requests.Keys
    ensures Later(w, v)
  {
    hide Grows;
  }

  /** Confirming leaves the row as evidence, on the running cluster. */
  lemma ConfirmingStep(cfg: Config, w: World, tr: Trade, sig: Signature, list: map<RequestId, Request>, cur: RequestId, e: Env)
    requires WorldOk(cfg, w) && Pending(w, tr) && List(w, tr.id, list) && Carries(w, tr.id, cur, sig)
    requires ClusterOk(list, cur, w.cluster) && Proven(cfg, w.landed, tr, sig)
    ensures StepOk(cfg, w, AdvanceSettle(cfg, w.db, w.now, w.cluster, Confirming(tr, sig, list, cur), e), {})
  {
    hide DbOk, StepOk, Pending, Proven, Apply;
    var v := w.(db := ConfirmRequest(w.db, cur, sig));
    ConfirmKeeps(cfg, w.db, w.now, w.landed, cur, sig);
    LaterWithoutRequests(w, v);
    PendingStable(w, v, tr);
    hide Grows, Later;
    if CanConfirm(w.db, cur) {
      assert ConfirmedBy(v.db, tr.id, sig, w.cluster, cur);
      hide List;
      SettledFrame(cfg, v, tr, sig);
      WriteStep(cfg, w, v.db, Settle(Superseding(tr, sig)));
      hide FrameOk;
      WriteStep(cfg, w, v.db, Apply(tr, Some(tr.buyer), Settled, None, ThenLedger(Some(sig)), w.now));
    } else {
      WriteStep(cfg, w, v.db, Returned(Refused));
    }
  }

  /** Being shown one more transaction disturbs nothing. */
  lemma MoreLanded(cfg: Config, w: World, v: World)
    requires WorldOk(cfg, w) && v == w.(landed := v.landed) && w.landed <= v.landed
    ensures WorldOk(cfg, v) && Later(w, v)
  {
    hide TradesOk, AcceptancesOk, RequestsOk, ChainOk, LedgerOk, ReceiptsOk, HasRequest, Evidence, Grows, Proven;
    forall t | t in w.db.trades && w.db.trades[t].state == Settled
      ensures exists sig, cluster :: Evidence(w.db, t, sig, cluster) && Proven(cfg, v.landed, w.db.trades[t], sig)
    {
      var sig, cluster :| Evidence(w.db, t, sig, cluster) && Proven(cfg, w.landed, w.db.trades[t], sig);
      ProvenStable(cfg, w.landed, v.landed, w.db.trades[t], sig);
    }
    GrowsRefl(w.db);
  }

  /** Whatever the verdict on a found transaction, the next frame's assertion holds. */
  lemma JudgeFrame(cfg: Config, w: World, tr: Trade, sig: Signature, list: map<RequestId, Request>, cur: RequestId,
                   tx: Transaction, failed: bool, termsOk: bool)
    requires Pending(w, tr) && List(w, tr.id, list) && Carries(w, tr.id, cur, sig) && (!failed ==> (sig, tx) in w.landed)
    ensures FrameOk(cfg, w, Judge(cfg, tr, sig, list, Some(cur), w.cluster, tx, failed, termsOk, w.now))
  {
    hide Apply, List, Carries, HasRequest, Copy, FrameOk;
    ApplyFrame(cfg, w, tr, Some(tr.buyer), Disputed, None, Refuse);
    ReturnedOk(cfg, w, Refused);
    assert FrameOk(cfg, w, Settle(Withdrawing(tr))) by { PendingFrames(cfg, w, tr); }
    if !failed && cfg.verify(TermsOf(tr), tx) && ClusterOk(list, cur, w.cluster) {
      assert Proven(cfg, w.landed, tr, sig);
      ConfirmingFrame(cfg, w, tr, sig, list, cur);
    }
  }

  lemma PendingFrames(cfg: Config, w: World, tr: Trade)
    requires Pending(w, tr)
    ensures FrameOk(cfg, w, Settle(Withdrawing(tr))) && FrameOk(cfg, w, Settle(Lapsing(tr)))
  {
    hide Pending;
  }

  lemma ConfirmingFrame(cfg: Config, w: World, tr: Trade, sig: Signature, list: map<RequestId, Request>, cur: RequestId)
    requires Pending(w, tr) && List(w, tr.id, list) && Carries(w, tr.id, cur, sig)
    requires ClusterOk(list, cur, w.cluster) && Proven(cfg, w.landed, tr, sig)
    ensures FrameOk(cfg, w, Settle(Confirming(tr, sig, list, cur)))
  {
    hide Pending, List, Carries, Proven;
  }

  /** One answer from the chain, to a confirmation or to the reconciler. */
  lemma FetchStep(cfg: Config, w: World, s: Settling, e: Env)
    requires WorldOk(cfg, w) && SettleOk(cfg, w, s) && (s.Fetching? || s.Refetching?)
    ensures StepOk(cfg, w, AdvanceSettle(cfg, w.db, w.now, w.cluster, s, e), Shown(Settle(s), e))
  {
    hide DbOk, Judge, Pending, List, Carries, FrameOk;
    var v := w.(landed := w.landed + Shown(Settle(s), e));
    MoreLanded(cfg, w, v);
    SettleStable(cfg, w, v, s);
    hide Later;
    ReturnedOk(cfg, v, Refused);
    PendingFrames(cfg, v, s.tr);
    FetchAgain(cfg, v, s);
    if e.answer.Landed? {
      JudgeFrame(cfg, v, s.tr, s.sig, s.list, if s.Fetching? then s.found.value else s.cur,
                 e.answer.tx, e.answer.failed, e.ok);
    }
    assert After(w, AdvanceSettle(cfg, w.db, w.now, w.cluster, s, e), Shown(Settle(s), e)) == v;
  }

  lemma FetchAgain(cfg: Config, w: World, s: Settling)
    requires SettleOk(cfg, w, s) && (s.Fetching? || s.Refetching?)
    ensures s.Fetching? ==> FrameOk(cfg, w, Settle(s.(attempt := s.attempt + 1)))
  {
    hide Pending, List, Carries;
  }

  /** Reading the requests a confirmation or a reconcile pass works from. */
  lemma ListStep(cfg: Config, w: World, s: Settling, e: Env)
    requires WorldOk(cfg, w) && SettleOk(cfg, w, s) && SettleReady(w.db, s, e)
    requires s.ConfirmList? || s.ConfirmCurrent? || s.ReconcileList?
    ensures StepOk(cfg, w, AdvanceSettle(cfg, w.db, w.now, w.cluster, s, e), {})
  {
    hide DbOk, List, Copy, HasRequest, StepOk, FrameOk, IsCurrent, IsLatest, IsLatestSigned;
    var r := AdvanceSettle(cfg, w.db, w.now, w.cluster, s, e);
    RequestListIsCurrent(w, s.tr.id);
    HasRequestIsListed(w.db, s.tr.id);
    ReturnedOk(cfg, w, Refused);
    PendingFrames(cfg, w, s.tr);
    hide Pending;
    assert FrameOk(cfg, w, r.frame) by {
      match s
      case ConfirmList(tr, sig) => ConfirmCurrentFrame(cfg, w, tr, sig);
      case ConfirmCurrent(tr, sig, list) =>
        PickedIsListed(w.db, tr.id, e);
        if ClusterOk(list, e.pick, w.cluster) { SigningFrame(cfg, w, tr, sig, list, e.pick); }
      case ReconcileList(tr) =>
        if AnySigned(RequestsOf(w.db, tr.id)) { RefetchingFrame(cfg, w, tr, e); }
    }
    ReadStep(cfg, w, r.frame);
  }

  lemma ConfirmCurrentFrame(cfg: Config, w: World, tr: Trade, sig: Signature)
    requires Pending(w, tr) && List(w, tr.id, RequestsOf(w.db, tr.id))
    ensures FrameOk(cfg, w, Settle(ConfirmCurrent(tr, sig, RequestsOf(w.db, tr.id))))
  {
    hide Pending, List;
  }

  lemma PickedIsListed(db: Db, id: TradeId, e: Env)
    requires RequestsOf(db, id) != map[] && IsCurrent(RequestsOf(db, id), e.pick)
    ensures e.pick in db.requests && db.requests[e.pick].trade == id
  {
  }

  lemma SigningFrame(cfg: Config, w: World, tr: Trade, sig: Signature, list: map<RequestId, Request>, cur: RequestId)
    requires Pending(w, tr) && List(w, tr.id, list) && Current(w, tr.id, cur) && ClusterOk(list, cur, w.cluster)
    ensures FrameOk(cfg, w, Settle(Signing(tr, sig, list, cur)))
  {
    hide Pending, List, Current;
  }

  lemma RefetchingFrame(cfg: Config, w: World, tr: Trade, e: Env)
    requires Pending(w, tr) && List(w, tr.id, RequestsOf(w.db, tr.id))
    requires IsLatestSigned(RequestsOf(w.db, tr.id), e.pick)
    ensures var list := RequestsOf(w.db, tr.id);
            FrameOk(cfg, w, Settle(Refetching(tr, list[e.pick].signature.value, list, e.pick, w.now)))
  {
    hide Pending, List;
  }

  lemma SettleStep(cfg: Config, w: World, s: Settling, e: Env)
    requires WorldOk(cfg, w) && SettleOk(cfg, w, s) && SettleReady(w.db, s, e)
    ensures StepOk(cfg, w, AdvanceSettle(cfg, w.db, w.now, w.cluster, s, e), Shown(Settle(s), e))
  {
    hide DbOk, List, Pending, StepOk, Judge, Apply, Carries, Proven, SettleReady;
    match s
    case ConfirmList(_, _) => ListStep(cfg, w, s, e);
    case ConfirmCurrent(_, _, _) => ListStep(cfg, w, s, e);
    case ReconcileList(_) => ListStep(cfg, w, s, e);
    case Signing(tr, sig, list, cur) => SigningStep(cfg, w, tr, sig, list, cur);
    case Fetching(_, _, _, _, _) => FetchStep(cfg, w, s, e);
    case Refetching(_, _, _, _, _) => FetchStep(cfg, w, s, e);
    case Lapsing(tr) => LapsingStep(cfg, w, tr);
    case Withdrawing(tr) => LapsingStep(cfg, w, tr);
    case Confirming(tr, sig, list, cur) => ConfirmingStep(cfg, w, tr, sig, list, cur, e);
    case Superseding(tr, sig) => SupersedingStep(cfg, w, tr, sig);
  }

  // ---------------------------------------------------------------- sweeping

  lemma SweepStep(cfg: Config, w: World, s: Sweeping)
    requires WorldOk(cfg, w) && SweepOk(w, s)
    ensures StepOk(cfg, w, AdvanceSweep(cfg, w.db, w.now, s), {})
  {
    hide TradesOk, AcceptancesOk, RequestsOk, SettlementOk, ChainOk, LedgerOk, ReceiptsOk, Copy, Apply, StepOk, Expirable;
    var r := AdvanceSweep(cfg, w.db, w.now, s);
    if s.Loading? && s.ids != [] && s.ids[0] in w.db.trades { FreshCopy(w.db, w.now, s.ids[0]); }
    if s.Expiring? && s.rest != [] {
      ApplyFrame(cfg, w, s.rest[0], None, Cancelled, Some(EventExpired), ThenSweep(s.rest[1..], s.cutoff));
    }
    ReadStep(cfg, w, r.frame);
  }

  // ---------------------------------------------------------------- state changes

  lemma MoveStep(cfg: Config, w: World, m: Moving)
    requires WorldOk(cfg, w) && MoveOk(cfg, w, m)
    ensures StepOk(cfg, w, AdvanceMove(w.db, w.now, m), {})
  {
    match m
    case Applying(tr, agent, to, kind, cont, at) => ApplyingStep(cfg, w, m);
    case Logging(tr, agent, to, kind, cont, at) => LoggingStep(cfg, w, m);
    case Rereading(id, cont) => RereadStep(cfg, w, id, cont);
  }

  lemma ApplyingStep(cfg: Config, w: World, m: Moving)
    requires WorldOk(cfg, w) && m.Applying? && MoveOk(cfg, w, m)
    ensures StepOk(cfg, w, AdvanceMove(w.db, w.now, m), {})
  {
    hide DbOk, ContOk, Copy, StepOk, Edge, AcceptedBy, HasRequest, Proven;
    var v := w.(db := CasState(w.db, m.tr.id, m.tr.state, m.to, m.at));
    CasKeeps(cfg, w, m.tr, m.to, m.cont, m.at);
    LaterWithoutRequests(w, v);
    ContStable(w, v, m.tr.id, m.cont);
    CopyStable(w.db, v.db, m.tr);
    CopyIsStored(v.db, m.tr);
    hide Grows, Later, ApplyOk;
    WriteStep(cfg, w, v.db, AdvanceMove(w.db, w.now, m).frame);
  }

  lemma CopyIsStored(db: Db, tr: Trade)
    requires Copy(db, tr)
    ensures tr.id in db.trades
  {
  }

  lemma LoggingStep(cfg: Config, w: World, m: Moving)
    requires WorldOk(cfg, w) && m.Logging? && MoveOk(cfg, w, m)
    ensures StepOk(cfg, w, AdvanceMove(w.db, w.now, m), {})
  {
    hide DbOk, ContOk, StepOk;
    var v := w.(db := AdvanceMove(w.db, w.now, m).db);
    EventKeeps(cfg, w.db, w.now, w.landed, Event(m.tr.id, m.agent, m.kind, Some(m.tr.state), m.to, m.at));
    LaterWithoutRequests(w, v);
    ContStable(w, v, m.tr.id, m.cont);
    hide Grows, Later;
    WriteStep(cfg, w, v.db, AdvanceMove(w.db, w.now, m).frame);
  }

  lemma RereadStep(cfg: Config, w: World, id: TradeId, cont: Cont)
    requires WorldOk(cfg, w) && id in w.db.trades && ContOk(w, id, cont)
    ensures StepOk(cfg, w, AdvanceMove(w.db, w.now, Rereading(id, cont)), {})
  {
    hide TradesOk, AcceptancesOk, RequestsOk, SettlementOk, ChainOk, LedgerOk, ReceiptsOk, Copy, StepOk, ProofOk;
    FreshCopy(w.db, w.now, id);
    ReadStep(cfg, w, AdvanceMove(w.db, w.now, Rereading(id, cont)).frame);
  }

  // ---------------------------------------------------------------- receipts

  lemma StampStep(cfg: Config, w: World, p: Stamping)
    requires WorldOk(cfg, w) && StampOk(cfg, w, p)
    ensures StepOk(cfg, w, AdvanceStamp(cfg, w.db, w.now, w.cluster, p), {})
  {
    hide DbOk, Copy, ProofOk, StepOk, HasEntry, Grows;
    var r := AdvanceStamp(cfg, w.db, w.now, w.cluster, p);
    match p
    case ReceiptCheck(tr, proof) => ReadStep(cfg, w, r.frame);
    case Heading(_, _, _, _) =>
      assert w.db.ledger[..|w.db.ledger|] == w.db.ledger;
      ReadStep(cfg, w, r.frame);
    case Appending(_, _, _, _, _, _) => AppendStep(cfg, w, p);
    case Saving(record, proof, entry) =>
      ReceiptKeeps(cfg, w, record, proof, entry);
      WriteStep(cfg, w, r.db, r.frame);
  }

  /** A stale head means another entry landed since it was read. */
  lemma AppendStep(cfg: Config, w: World, p: Stamping)
    requires WorldOk(cfg, w) && p.Appending? && StampOk(cfg, w, p)
    ensures StepOk(cfg, w, AdvanceStamp(cfg, w.db, w.now, w.cluster, p), {})
  {
    hide DbOk, Copy, ProofOk, StepOk, HasEntry;
    var r := AdvanceStamp(cfg, w.db, w.now, w.cluster, p);
    AppendKeeps(cfg, w, p.record, p.proof, p.prev);
    var v := w.(db := r.db);
    LaterWithoutRequests(w, v);
    CopyStable(w.db, v.db, p.record.trade);
    ProofStable(w, v, p.record.trade.id, p.proof);
    hide Grows, Later;
    if p.seen == |w.db.ledger| { assert w.db.ledger[..p.seen] == w.db.ledger; }
    WriteStep(cfg, w, r.db, r.frame);
  }
}
