/** The method grain: runs in which a call is only made once every earlier call has
    returned. The clock may still move at any point. Claims that lost races break at the
    fine grain hold here. */
module MethodGrain {
  import opened Options
  import opened Domain
  import opened Tables
  import opened Protocol
  import opened Safety
  import opened Transactions
  import opened Interleaving
  import opened Runs

  ghost predicate Idle(s: State) { forall c :: c in s.calls ==> s.calls[c].Returned? }

  ghost predicate IsSequentialRun(cfg: Config, states: seq<State>, steps: seq<Step>)
  {
    && IsRun(cfg, states, steps)
    && forall i :: 0 <= i < |steps| && steps[i].Invoke? ==> Idle(states[i])
  }

  // ---------------------------------------------------------------- live requests

  ghost predicate HasIssued(db: Db, id: TradeId)
  {
    exists r :: r in db.requests && IssuedFor(db.requests[r], id)
  }

  /** What a trade's state says of its requests between two calls. */
  ghost predicate QuietTrade(db: Db, now: Time, t: TradeId)
    requires t in db.trades
  {
    match db.trades[t].state
    case Settled => !HasIssued(db, t)
    case Cancelled => !HasLiveRequest(db, t, now)
    case SettlementPending => true
    case Disputed => true
    case Resolved => true
    case _ => !HasRequest(db, t)
  }

  /** A build has inserted its request and has yet to move the trade to pending. */
  predicate Awaits(f: Frame, t: TradeId)
  {
    f.Move? && f.moving.Applying? && f.moving.to == SettlementPending && f.moving.tr.id == t
  }

  ghost predicate Quiet(db: Db, now: Time, f: Frame)
  {
    forall t :: t in db.trades && !Awaits(f, t) ==> QuietTrade(db, now, t)
  }

  // ---------------------------------------------------------------- what the running call knows

  ghost predicate Exact(db: Db, tr: Trade) { tr.id in db.trades && db.trades[tr.id] == tr }

  ghost predicate IsRecorded(db: Db, id: TradeId) { id in db.trades && db.trades[id].state == Recorded }

  ghost predicate Unsigned(cont: Cont) { cont.ThenLedger? && cont.sig.None? }

  /** With nothing else running, a copy that matters is the stored row. */
  ghost predicate Alone(cfg: Config, db: Db, now: Time, f: Frame)
  {
    match f
    case Leave(Spending(tr, _, build)) => Exact(db, tr) && (build ==> cfg.settlement)
    case Leave(Building(tr, _, _)) => Exact(db, tr) && cfg.settlement
    case Move(Applying(tr, _, to, _, cont, _)) =>
      && (to == SettlementPending || Unsigned(cont) ==> Exact(db, tr))
      && (Unsigned(cont) ==> to == Recorded)
      && (to == Settled ==> !HasIssued(db, tr.id))
      && (to == Cancelled && tr.state == SettlementPending ==> !HasLiveRequest(db, tr.id, now))
    case Move(Logging(tr, _, _, _, cont, _)) => Unsigned(cont) ==> IsRecorded(db, tr.id)
    case Move(Rereading(id, cont)) => Unsigned(cont) ==> IsRecorded(db, id)
    case Stamp(p) => p.proof.None? ==> IsRecorded(db, if p.ReceiptCheck? then p.tr.id else p.record.trade.id)
    case _ => true
  }

  ghost predicate SettledAreSigned(db: Db)
  {
    forall t :: t in db.receipts && t in db.trades && db.trades[t].state == Settled ==> db.receipts[t].signature.Some?
  }

  /** Without settlement there are no requests at all. */
  ghost predicate NoneWithoutSettlement(cfg: Config, db: Db) { !cfg.settlement ==> db.requests == map[] }

  ghost predicate Solo(cfg: Config, db: Db, now: Time, f: Frame)
  {
    Quiet(db, now, f) && Alone(cfg, db, now, f) && SettledAreSigned(db) && NoneWithoutSettlement(cfg, db)
  }

  // ---------------------------------------------------------------- steps that leave trades and requests alone

  lemma SameRows(v: Db, w: Db, now: Time, t: TradeId)
    requires v.trades == w.trades && v.requests == w.requests && t in v.trades
    ensures QuietTrade(v, now, t) == QuietTrade(w, now, t)
    ensures HasIssued(v, t) == HasIssued(w, t) && HasLiveRequest(v, t, now) == HasLiveRequest(w, t, now)
  {
  }

  lemma QuietCarries(v: Db, w: Db, now: Time, f: Frame, g: Frame)
    requires Quiet(v, now, f) && v.trades == w.trades && v.requests == w.requests
    requires forall t :: t in v.trades && Awaits(f, t) ==> Awaits(g, t)
    ensures Quiet(w, now, g)
  {
    hide QuietTrade, Awaits;
    forall t | t in w.trades && !Awaits(g, t) ensures QuietTrade(w, now, t) {
      SameRows(v, w, now, t);
    }
  }

  /** Requests may only be retired, confirmed or signed. */
  lemma QuietShrinks(v: Db, w: Db, now: Time, f: Frame, g: Frame)
    requires Quiet(v, now, f) && v.trades == w.trades && RequestsGrow(v.requests, w.requests)
    requires v.requests.Keys == w.requests.Keys
    requires forall t :: t in v.trades && Awaits(f, t) ==> Awaits(g, t)
    ensures Quiet(w, now, g)
  {
    hide QuietTrade, Awaits, RequestsGrow;
    forall t | t in w.trades && !Awaits(g, t) ensures QuietTrade(w, now, t) {
      ShrunkRows(v, w, now, t);
    }
  }

  lemma ShrunkRows(v: Db, w: Db, now: Time, t: TradeId)
    requires v.trades == w.trades && RequestsGrow(v.requests, w.requests) && v.requests.Keys == w.requests.Keys
    requires t in v.trades && QuietTrade(v, now, t)
    ensures QuietTrade(w, now, t)
  {
    forall r | r in w.requests
      ensures r in v.requests && RequestGrows(v.requests[r], w.requests[r])
      ensures w.requests[r].trade == v.requests[r].trade
    {
    }
    if HasIssued(w, t) {
      var r :| r in w.requests && IssuedFor(w.requests[r], t);
      assert IssuedFor(v.requests[r], t);
    }
    if HasLiveRequest(w, t, now) {
      var r :| r in w.requests && w.requests[r].trade == t && w.requests[r].Live(now);
      assert v.requests[r].Live(now);
    }
    if HasRequest(w, t) {
      var r :| r in w.requests && w.requests[r].trade == t;
      assert r in v.requests && v.requests[r].trade == t;
    }
  }

  lemma LiveIsIssued(db: Db, id: TradeId, now: Time)
    ensures !HasIssued(db, id) ==> !HasLiveRequest(db, id, now)
    ensures !HasRequest(db, id) ==> !HasIssued(db, id)
  {
    if HasLiveRequest(db, id, now) {
      var r :| r in db.requests && db.requests[r].trade == id && db.requests[r].Live(now);
      assert IssuedFor(db.requests[r], id);
    }
  }

  // ---------------------------------------------------------------- the guarded state change

  lemma ApplyAlone(cfg: Config, db: Db, now: Time, tr: Trade, actor: Actor, to: TradeState, override: Option<EventType>, cont: Cont)
    requires to == SettlementPending || Unsigned(cont) ==> Exact(db, tr)
    requires Unsigned(cont) ==> to == Recorded
    requires to == Settled ==> !HasIssued(db, tr.id)
    requires to == Cancelled && tr.state == SettlementPending ==> !HasLiveRequest(db, tr.id, now)
    ensures Alone(cfg, db, now, Apply(tr, actor, to, override, cont, now))
    ensures to != SettlementPending ==> forall t :: !Awaits(Apply(tr, actor, to, override, cont, now), t)
  {
    hide Exact, HasIssued, HasLiveRequest;
  }

  /** What the moved row's new state asks of its requests, its old state or the call knew. */
  lemma MovedRow(cfg: Config, w: World, m: Moving)
    requires m.Applying? && MoveOk(cfg, w, m) && CasApplies(w.db, m.tr.id, m.tr.state)
    requires Quiet(w.db, w.now, Move(m)) && Alone(cfg, w.db, w.now, Move(m))
    ensures var v := CasState(w.db, m.tr.id, m.tr.state, m.to, m.at);
            m.to in {Settled, Cancelled, SettlementPending, Disputed, Resolved} || !HasRequest(w.db, m.tr.id)
    ensures m.to == Settled ==> !HasIssued(w.db, m.tr.id)
    ensures m.to == Cancelled ==> !HasLiveRequest(w.db, m.tr.id, w.now)
  {
    hide Copy, ContOk, AcceptedBy, Proven, HasRequest, HasIssued, HasLiveRequest;
    LiveIsIssued(w.db, m.tr.id, w.now);
    assert !Awaits(Move(m), m.tr.id) ==> QuietTrade(w.db, w.now, m.tr.id);
  }

  lemma CasQuiet(cfg: Config, w: World, m: Moving, g: Frame)
    requires m.Applying? && MoveOk(cfg, w, m) && CasApplies(w.db, m.tr.id, m.tr.state)
    requires Quiet(w.db, w.now, Move(m)) && Alone(cfg, w.db, w.now, Move(m))
    ensures Quiet(CasState(w.db, m.tr.id, m.tr.state, m.to, m.at), w.now, g)
  {
    MovedRow(cfg, w, m);
    var v := CasState(w.db, m.tr.id, m.tr.state, m.to, m.at);
    hide MoveOk, Alone;
    forall t | t in v.trades ensures QuietTrade(v, w.now, t) {
      assert v.requests == w.db.requests;
      if t != m.tr.id { assert !Awaits(Move(m), t) && QuietTrade(w.db, w.now, t); }
    }
  }

  lemma ApplyingAlone(cfg: Config, w: World, m: Moving)
    requires WorldOk(cfg, w) && m.Applying? && MoveOk(cfg, w, m) && Solo(cfg, w.db, w.now, Move(m))
    ensures var r := AdvanceMove(w.db, w.now, m); Solo(cfg, r.db, w.now, r.frame)
  {
    var r := AdvanceMove(w.db, w.now, m);
    if CasApplies(w.db, m.tr.id, m.tr.state) {
      CasQuiet(cfg, w, m, r.frame);
      CasSigned(cfg, w, m);
      hide DbOk, MoveOk, Quiet, SettledAreSigned, HasIssued, HasLiveRequest;
    } else {
      hide DbOk, MoveOk, SettledAreSigned, HasIssued, HasLiveRequest, QuietTrade;
      QuietCarries(w.db, r.db, w.now, Move(m), r.frame);
    }
  }

  /** A trade that settles has no receipt yet. */
  lemma CasSigned(cfg: Config, w: World, m: Moving)
    requires WorldOk(cfg, w) && m.Applying? && MoveOk(cfg, w, m) && SettledAreSigned(w.db)
    ensures SettledAreSigned(CasState(w.db, m.tr.id, m.tr.state, m.to, m.at))
  {
    hide TradesOk, AcceptancesOk, RequestsOk, SettlementOk, ChainOk, LedgerOk, ContOk, Copy, AcceptedBy, HasRequest, Proven, ReceiptOk;
    EdgeFacts(m.tr.state, m.to);
    if m.tr.id in w.db.receipts { ReceiptIsDelivered(w.db, m.tr.id); }
  }

  lemma MoveAlone(cfg: Config, w: World, m: Moving)
    requires WorldOk(cfg, w) && MoveOk(cfg, w, m) && Solo(cfg, w.db, w.now, Move(m))
    ensures var r := AdvanceMove(w.db, w.now, m); Solo(cfg, r.db, w.now, r.frame)
  {
    if m.Applying? {
      ApplyingAlone(cfg, w, m);
    } else {
      var r := AdvanceMove(w.db, w.now, m);
      hide DbOk, MoveOk, SettledAreSigned, QuietTrade;
      QuietCarries(w.db, r.db, w.now, Move(m), r.frame);
    }
  }

  // ---------------------------------------------------------------- the other steps

  lemma ReadAlone(cfg: Config, db: Db, now: Time, f: Frame, g: Frame)
    requires Solo(cfg, db, now, f) && Alone(cfg, db, now, g)
    requires forall t :: t in db.trades && Awaits(f, t) ==> Awaits(g, t)
    ensures Solo(cfg, db, now, g)
  {
    hide Alone, SettledAreSigned, NoneWithoutSettlement, Awaits, QuietTrade;
    QuietCarries(db, db, now, f, g);
  }

  lemma BegunAlone(cfg: Config, db: Db, now: Time, cmd: Command, id: TradeId)
    requires id in db.trades && db.trades[id].id == id
    requires !cmd.Create? && !cmd.SweepAccepted? && !cmd.SweepOpen?
    ensures Alone(cfg, db, now, Begun(cfg, cmd, db.trades[id], now))
  {
    hide HasIssued, HasLiveRequest;
  }

  lemma OpenAlone(cfg: Config, w: World, o: Opening, e: Env)
    requires WorldOk(cfg, w) && OpenOk(w, o) && OpenReady(cfg, w.db, w.now, o, e) && Solo(cfg, w.db, w.now, Open(o))
    ensures var r := AdvanceOpen(cfg, w.db, w.now, o, e); Solo(cfg, r.db, w.now, r.frame)
  {
    hide AcceptancesOk, SettlementOk, ChainOk, LedgerOk, ReceiptsOk, Quiet, SettledAreSigned, Begun, IsBatch, RequestsOk;
    var r := AdvanceOpen(cfg, w.db, w.now, o, e);
    if o.CreateInsert? {
      InsertedQuiet(cfg, w, o.draft, o.actor, r.frame);
    } else {
      hide TradesOk;
      if o.CreateLog? {
        QuietCarries(w.db, r.db, w.now, Open(o), r.frame);
        SameReceipts(w.db, r.db);
      } else if o.Start? && !o.cmd.Create? && !o.cmd.SweepAccepted? && !o.cmd.SweepOpen? && o.cmd.id in w.db.trades {
        FreshCopy(w.db, w.now, o.cmd.id);
        BegunAlone(cfg, w.db, w.now, o.cmd, o.cmd.id);
        ReadAlone(cfg, w.db, w.now, Open(o), r.frame);
      } else {
        ReadAlone(cfg, w.db, w.now, Open(o), r.frame);
      }
    }
  }

  /** A new trade's identifier names no request and no receipt. */
  lemma InsertedQuiet(cfg: Config, w: World, tr: Trade, actor: AgentId, g: Frame)
    requires WorldOk(cfg, w) && DraftOk(tr)
    requires Quiet(w.db, w.now, Open(CreateInsert(tr, actor))) && SettledAreSigned(w.db)
    ensures Quiet(InsertTrade(w.db, tr), w.now, g) && SettledAreSigned(InsertTrade(w.db, tr))
  {
    hide TradesOk, AcceptancesOk, SettlementOk, ChainOk, LedgerOk, ReceiptsOk, OneIssued, QuietTrade;
    InsertedSigned(w.db, tr);
    hide SettledAreSigned;
    var v := InsertTrade(w.db, tr);
    forall t | t in v.trades ensures QuietTrade(v, w.now, t) {
      if t in w.db.trades {
        SameRow(w.db, v, w.now, t);
      } else {
        NoRequestIsQuiet(v, w.now, t);
      }
    }
  }

  lemma InsertedSigned(db: Db, tr: Trade)
    requires DraftOk(tr) && SettledAreSigned(db)
    ensures SettledAreSigned(InsertTrade(db, tr))
  {
  }

  lemma SameRow(v: Db, w: Db, now: Time, t: TradeId)
    requires t in v.trades && t in w.trades && v.trades[t] == w.trades[t] && v.requests == w.requests
    requires QuietTrade(v, now, t)
    ensures QuietTrade(w, now, t)
  {
  }

  lemma NoRequestIsQuiet(db: Db, now: Time, t: TradeId)
    requires t in db.trades && forall r :: r in db.requests ==> db.requests[r].trade != t
    ensures QuietTrade(db, now, t) && !HasIssued(db, t)
  {
  }

  lemma AgreeAlone(cfg: Config, w: World, a: Agreeing)
    requires Solo(cfg, w.db, w.now, Agree(a))
    ensures var r := AdvanceAgree(w.db, w.now, a); Solo(cfg, r.db, w.now, r.frame)
  {
    hide QuietTrade;
    var r := AdvanceAgree(w.db, w.now, a);
    QuietCarries(w.db, r.db, w.now, Agree(a), r.frame);
  }

  lemma LeaveAlone(cfg: Config, w: World, l: Leaving, e: Env)
    requires LeaveOk(w, l) && LeaveReady(w.db, l, e) && Solo(cfg, w.db, w.now, Leave(l))
    ensures var r := AdvanceLeave(cfg, w.db, w.now, w.cluster, l, e); Solo(cfg, r.db, w.now, r.frame)
  {
    hide Quiet, SettledAreSigned, Copy, FirstAcceptance;
    var r := AdvanceLeave(cfg, w.db, w.now, w.cluster, l, e);
    if l.Building? {
      hide Alone;
      BuildingAlone(cfg, w, l.tr, l.actor, l.at, e);
    } else {
      if l.CancelLive? && !cfg.settlement { assert !HasLiveRequest(w.db, l.tr.id, w.now); }
      hide HasLiveRequest, HasIssued, NoneWithoutSettlement;
      ReadAlone(cfg, w.db, w.now, Leave(l), r.frame);
    }
  }

  /** A build's request is for a trade still accepted or pending, and for no other. */
  lemma BuildingAlone(cfg: Config, w: World, tr: Trade, actor: AgentId, at: Time, e: Env)
    requires Buildable(tr) && e.freshId !in w.db.requests
    requires Solo(cfg, w.db, w.now, Leave(Building(tr, actor, at)))
    ensures var r := AdvanceLeave(cfg, w.db, w.now, w.cluster, Building(tr, actor, at), e); Solo(cfg, r.db, w.now, r.frame)
  {
    hide SettledAreSigned;
    var r := AdvanceLeave(cfg, w.db, w.now, w.cluster, Building(tr, actor, at), e);
    assert SettledAreSigned(r.db) by { SameReceipts(w.db, r.db); }
    hide QuietTrade;
    forall t | t in r.db.trades && !Awaits(r.frame, t) ensures QuietTrade(r.db, w.now, t) {
      if t == tr.id {
        PendingIsQuiet(r.db, w.now, t);
      } else {
        CreateTouchesOne(w.db, NewRequest(tr, w.cluster, at, e), t);
        OtherRequests(w.db, r.db, w.now, t);
      }
    }
  }

  lemma CreateTouchesOne(db: Db, r: Request, t: TradeId)
    requires r.id !in db.requests && t != r.trade
    ensures var w := CreateRequest(db, r);
            forall q :: q in w.requests && w.requests[q].trade == t ==> q in db.requests && db.requests[q] == w.requests[q]
  {
  }

  lemma SameReceipts(v: Db, w: Db)
    requires SettledAreSigned(v) && v.trades == w.trades && v.receipts == w.receipts
    ensures SettledAreSigned(w)
  {
  }

  lemma PendingIsQuiet(db: Db, now: Time, t: TradeId)
    requires t in db.trades && db.trades[t].state == SettlementPending
    ensures QuietTrade(db, now, t)
  {
  }

  lemma OtherRequests(v: Db, w: Db, now: Time, t: TradeId)
    requires v.trades == w.trades && t in v.trades && QuietTrade(v, now, t)
    requires forall r :: r in w.requests && w.requests[r].trade == t ==> r in v.requests && v.requests[r] == w.requests[r]
    ensures QuietTrade(w, now, t)
  {
  }

  // ---------------------------------------------------------------- settling

  lemma ExpiredNoneIssued(db: Db, id: TradeId)
    ensures !HasIssued(ExpireRequests(db, id), id)
  {
  }

  lemma ConfirmedNoneIssued(db: Db, cur: RequestId, sig: Signature)
    requires OneIssued(db.requests) && CanConfirm(db, cur)
    ensures !HasIssued(ConfirmRequest(db, cur, sig), db.requests[cur].trade)
  {
  }

  lemma ShrinkAlone(cfg: Config, v: Db, w: Db, now: Time, f: Frame, g: Frame)
    requires Solo(cfg, v, now, f) && Alone(cfg, w, now, g)
    requires v.trades == w.trades && v.receipts == w.receipts
    requires RequestsGrow(v.requests, w.requests) && v.requests.Keys == w.requests.Keys
    requires forall t :: !Awaits(f, t)
    ensures Solo(cfg, w, now, g)
  {
    SameReceipts(v, w);
    QuietShrinks(v, w, now, f, g);
    hide Quiet, Alone, SettledAreSigned, RequestsGrow;
    if v.requests == map[] { assert w.requests.Keys == {}; }
  }

  lemma ExpiringAlone(cfg: Config, w: World, s: Settling, g: Frame)
    requires RequestsOk(w.db) && Solo(cfg, w.db, w.now, Settle(s))
    requires Alone(cfg, ExpireRequests(w.db, s.tr.id), w.now, g)
    ensures Solo(cfg, ExpireRequests(w.db, s.tr.id), w.now, g)
  {
    ExpireRows(w.db, s.tr.id);
    hide Solo, RequestsOk, Alone, RequestsGrow;
    ShrinkAlone(cfg, w.db, ExpireRequests(w.db, s.tr.id), w.now, Settle(s), g);
  }

  lemma ExpireStep(cfg: Config, w: World, s: Settling, e: Env)
    requires RequestsOk(w.db) && Solo(cfg, w.db, w.now, Settle(s)) && SettleReady(w.db, s, e)
    requires s.Lapsing? || s.Withdrawing? || s.Superseding?
    ensures var r := AdvanceSettle(cfg, w.db, w.now, w.cluster, s, e); Solo(cfg, r.db, w.now, r.frame)
  {
    hide Solo, RequestsOk, HasIssued, HasLiveRequest, Apply;
    var v := ExpireRequests(w.db, s.tr.id);
    ExpiredNoneIssued(w.db, s.tr.id);
    LiveIsIssued(v, s.tr.id, w.now);
    ApplyAlone(cfg, v, w.now, s.tr, None, Cancelled, Some(EventExpired), Return);
    if s.Superseding? { ApplyAlone(cfg, v, w.now, s.tr, Some(s.tr.buyer), Settled, None, ThenLedger(Some(s.sig))); }
    var r := AdvanceSettle(cfg, w.db, w.now, w.cluster, s, e);
    assert Alone(cfg, v, w.now, Returned(Refused));
    hide Alone;
    ExpiringAlone(cfg, w, s, r.frame);
  }

  lemma ConfirmStep(cfg: Config, w: World, s: Settling, e: Env)
    requires RequestsOk(w.db) && SettleOk(cfg, w, s) && Solo(cfg, w.db, w.now, Settle(s)) && SettleReady(w.db, s, e)
    requires s.Confirming?
    ensures var r := AdvanceSettle(cfg, w.db, w.now, w.cluster, s, e); Solo(cfg, r.db, w.now, r.frame)
  {
    hide Solo, HasIssued, HasLiveRequest, Apply, RequestsGrow, List, Pending, Proven, RequestRowsOk, OneIssued;
    var v := ConfirmRequest(w.db, s.cur, s.sig);
    OneRequestRows(w.db, v, s.cur);
    if CanConfirm(w.db, s.cur) { ConfirmedNoneIssued(w.db, s.cur, s.sig); }
    var r := AdvanceSettle(cfg, w.db, w.now, w.cluster, s, e);
    if CanConfirm(w.db, s.cur) {
      ApplyAlone(cfg, v, w.now, s.tr, Some(s.tr.buyer), Settled, None, ThenLedger(Some(s.sig)));
    }
    assert Alone(cfg, v, w.now, r.frame);
    hide Alone, SettleOk;
    ShrinkAlone(cfg, w.db, v, w.now, Settle(s), r.frame);
  }

  lemma SignStep(cfg: Config, w: World, s: Settling, e: Env)
    requires RequestsOk(w.db) && Solo(cfg, w.db, w.now, Settle(s)) && SettleReady(w.db, s, e) && s.Signing?
    ensures var r := AdvanceSettle(cfg, w.db, w.now, w.cluster, s, e); Solo(cfg, r.db, w.now, r.frame)
  {
    hide Solo, RequestsOk, RequestsGrow;
    var v := SignRequest(w.db, s.cur, s.sig);
    OneRequestRows(w.db, v, s.cur);
    ShrinkAlone(cfg, w.db, v, w.now, Settle(s), AdvanceSettle(cfg, w.db, w.now, w.cluster, s, e).frame);
  }

  /** Reads, fetches and verdicts. */
  lemma JudgeAlone(cfg: Config, w: World, s: Settling, e: Env)
    requires SettleOk(cfg, w, s) && Solo(cfg, w.db, w.now, Settle(s)) && SettleReady(w.db, s, e)
    requires s.ConfirmList? || s.ConfirmCurrent? || s.Fetching? || s.ReconcileList? || s.Refetching?
    ensures var r := AdvanceSettle(cfg, w.db, w.now, w.cluster, s, e); Solo(cfg, r.db, w.now, r.frame)
  {
    hide Quiet, SettledAreSigned, NoneWithoutSettlement, HasIssued, HasLiveRequest, List, Pending, Proven, Carries,
         SettleReady, ClusterOk, AnySigned;
    ReadAlone(cfg, w.db, w.now, Settle(s), AdvanceSettle(cfg, w.db, w.now, w.cluster, s, e).frame);
  }

  lemma SettleAlone(cfg: Config, w: World, s: Settling, e: Env)
    requires RequestsOk(w.db) && SettleOk(cfg, w, s) && Solo(cfg, w.db, w.now, Settle(s)) && SettleReady(w.db, s, e)
    ensures var r := AdvanceSettle(cfg, w.db, w.now, w.cluster, s, e); Solo(cfg, r.db, w.now, r.frame)
  {
    hide Solo, RequestsOk, SettleOk, SettleReady, AdvanceSettle;
    match s
    case Signing(_, _, _, _) => SignStep(cfg, w, s, e);
    case Confirming(_, _, _, _) => ConfirmStep(cfg, w, s, e);
    case Lapsing(_) => ExpireStep(cfg, w, s, e);
    case Withdrawing(_) => ExpireStep(cfg, w, s, e);
    case Superseding(_, _) => ExpireStep(cfg, w, s, e);
    case _ => JudgeAlone(cfg, w, s, e);
  }

  lemma SweepAlone(cfg: Config, w: World, s: Sweeping)
    requires Solo(cfg, w.db, w.now, Sweep(s))
    ensures var r := AdvanceSweep(cfg, w.db, w.now, s); Solo(cfg, r.db, w.now, r.frame)
  {
    hide Quiet, SettledAreSigned, NoneWithoutSettlement, HasIssued, HasLiveRequest;
    ReadAlone(cfg, w.db, w.now, Sweep(s), AdvanceSweep(cfg, w.db, w.now, s).frame);
  }

  lemma StampAlone(cfg: Config, w: World, p: Stamping)
    requires Solo(cfg, w.db, w.now, Stamp(p))
    ensures var r := AdvanceStamp(cfg, w.db, w.now, w.cluster, p); Solo(cfg, r.db, w.now, r.frame)
  {
    hide QuietTrade, HasEntry;
    var r := AdvanceStamp(cfg, w.db, w.now, w.cluster, p);
    QuietCarries(w.db, r.db, w.now, Stamp(p), r.frame);
  }

  /** One step of the only running call. */
  lemma StepAlone(cfg: Config, w: World, f: Frame, e: Env)
    requires WorldOk(cfg, w) && FrameOk(cfg, w, f) && Ready(cfg, w.db, w.now, f, e) && Solo(cfg, w.db, w.now, f)
    ensures var r := Advance(cfg, w.db, w.now, w.cluster, f, e); Solo(cfg, r.db, w.now, r.frame)
  {
    hide TradesOk, AcceptancesOk, RequestsOk, SettlementOk, ChainOk, LedgerOk, ReceiptsOk,
         OpenOk, AgreeOk, LeaveOk, SettleOk, SweepOk, MoveOk, StampOk, Solo,
         OpenReady, LeaveReady, SettleReady, AdvanceOpen, AdvanceAgree, AdvanceLeave, AdvanceSettle, AdvanceSweep,
         AdvanceMove, AdvanceStamp;
    match f
    case Open(o) => OpenAlone(cfg, w, o, e);
    case Agree(a) => AgreeAlone(cfg, w, a);
    case Leave(l) => LeaveAlone(cfg, w, l, e);
    case Settle(s) => SettleAlone(cfg, w, s, e);
    case Sweep(s) => SweepAlone(cfg, w, s);
    case Move(m) => MoveAlone(cfg, w, m);
    case Stamp(p) => StampAlone(cfg, w, p);
    case Returned(_) =>
  }
}
