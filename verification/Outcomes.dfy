/** What each call of the service comes to when it is made alone: the tables it leaves and
    the answer it gives, from the tables it found. Nothing here is said in terms of the
    guards the calls are written with. */
module Outcomes {
  import opened Options
  import opened Domain
  import opened Tables
  import opened Protocol
  import opened Safety
  import opened Transactions
  import opened Interleaving
  import opened Runs
  import opened EventLog
  import opened MethodGrain
  import opened Sequential
  import opened RunningAlone
  import opened Calls

  /** Tables and process as calls that do not overlap leave them. */
  ghost predicate Calm(cfg: Config, w: World) { WorldOk(cfg, w) && Fact(cfg, w.db, w.now, IDLE) }

  lemma BetweenIsCalm(cfg: Config, s: State)
    requires Between(cfg, s)
    ensures Calm(cfg, WorldOf(s))
  {
    hide Between, DbOk, FramesOk, LockOk, Fact;
    BetweenFact(cfg, s);
  }

  /** A legal move: the row in its new state, stamped now, and its event at the end of the
      log. */
  function Moved(db: Db, t: TradeId, to: TradeState, agent: Actor, kind: EventType, now: Time): Db
    requires t in db.trades
  {
    var tr := db.trades[t];
    db.(trades := db.trades[t := tr.(state := to, updatedAt := now)],
        events := db.events + [Event(t, agent, kind, Some(tr.state), to, now)])
  }

  /** Nothing changed. */
  predicate Unmoved(v: World, w: World, out: Outcome, answer: Outcome) { w == v && out == answer }

  // ---------------------------------------------------------------- steps with one effect

  /** A step that takes nothing from outside. */
  lemma LeadsOn(cfg: Config, given: Option<Outside>, v: World, f: Frame, r: Effect, w: World, out: Outcome)
    requires Leads(cfg, given, v, f, w, out) && !f.Returned? && !f.Settle?
    requires forall e :: Ready(cfg, v.db, v.now, f, e) ==> Advance(cfg, v.db, v.now, v.cluster, f, e) == r
    ensures Leads(cfg, given, v.(db := r.db), r.frame, w, out)
  {
    hide Ready, Advance, Leads;
    var e := LeadsNext(cfg, given, v, f, w, out);
    assert v.landed + Shown(f, e) == v.landed;
  }

  lemma LeadsOut(cfg: Config, given: Option<Outside>, v: World, answer: Outcome, w: World, out: Outcome)
    requires Leads(cfg, given, v, Returned(answer), w, out)
    ensures w == v && out == answer
  {
    hide Leads;
    LeadsEnd(cfg, given, v, Returned(answer), w, out);
  }

  /** What follows a state change once its row has been read back. */
  function Onward(db: Db, t: TradeId, cont: Cont): Frame
    requires t in db.trades
  {
    match cont
    case Return => Returned(OkTrade(db.trades[t]))
    case Refuse => Returned(Refused)
    case ThenLedger(sig) => Stamp(ReceiptCheck(db.trades[t], sig))
    case ThenRequest(r) => Returned(OkRequest(r))
    case ThenSweep(rest, cutoff) => Sweep(Expiring(rest, cutoff))
  }

  /** A state change by a call that holds the stored row goes through. */
  lemma MoveLeads(cfg: Config, given: Option<Outside>, v: World, m: Moving, w: World, out: Outcome)
    requires m.Applying? && m.at == v.now && m.tr.id in v.db.trades && v.db.trades[m.tr.id] == m.tr
    requires Leads(cfg, given, v, Move(m), w, out)
    ensures var db := Moved(v.db, m.tr.id, m.to, m.agent, m.kind, v.now);
            Leads(cfg, given, v.(db := db), Onward(db, m.tr.id, m.cont), w, out)
  {
    hide Leads;
    var t, db := m.tr.id, Moved(v.db, m.tr.id, m.to, m.agent, m.kind, v.now);
    var a := AdvanceMove(v.db, v.now, m);
    LeadsOn(cfg, given, v, Move(m), a, w, out);
    var b := AdvanceMove(a.db, v.now, a.frame.moving);
    LeadsOn(cfg, given, v.(db := a.db), a.frame, b, w, out);
    assert b.db == db;
    LeadsOn(cfg, given, v.(db := b.db), b.frame, AdvanceMove(b.db, v.now, b.frame.moving), w, out);
  }

  // ---------------------------------------------------------------- receipts

  function LastHash(h: Hasher, ledger: seq<Entry>): Hash { if |ledger| == 0 then h.genesis else ledger[|ledger| - 1].hash }

  /** The chain one entry longer, and the receipt that names it. */
  function Receipted(h: Hasher, db: Db, t: TradeId, sig: Option<Signature>, cluster: Cluster, now: Time): Db
    requires t in db.trades
  {
    var record, n, prev := TradeRecord(db.trades[t], now), |db.ledger| + 1, LastHash(h, db.ledger);
    var entry := Entry(n, t, record, h.payload(record), prev, h.entry(n, prev, h.payload(record)));
    db.(ledger := db.ledger + [entry],
        receipts := db.receipts[t := Receipt(t, record, n, entry.hash, sig, if sig.Some? then Some(cluster) else None)])
  }

  /** Issuing the receipt of a delivered trade that has neither entry nor receipt. */
  lemma StampLeads(cfg: Config, given: Option<Outside>, v: World, t: TradeId, sig: Option<Signature>, w: World, out: Outcome)
    requires t in v.db.trades && v.db.trades[t].id == t && v.db.trades[t].state in {Recorded, Settled}
    requires t !in v.db.receipts && forall i :: 0 <= i < |v.db.ledger| ==> v.db.ledger[i].trade != t
    requires Leads(cfg, given, v, Stamp(ReceiptCheck(v.db.trades[t], sig)), w, out)
    ensures w == v.(db := Receipted(cfg.hasher, v.db, t, sig, v.cluster, v.now)) && out == OkReceipt(w.db.receipts[t])
  {
    hide Leads;
    var p0 := ReceiptCheck(v.db.trades[t], sig);
    var a := AdvanceStamp(cfg, v.db, v.now, v.cluster, p0);
    LeadsOn(cfg, given, v, Stamp(p0), a, w, out);
    var b := AdvanceStamp(cfg, v.db, v.now, v.cluster, a.frame.stamping);
    LeadsOn(cfg, given, v, a.frame, b, w, out);
    var c := AdvanceStamp(cfg, v.db, v.now, v.cluster, b.frame.stamping);
    LeadsOn(cfg, given, v, b.frame, c, w, out);
    var d := AdvanceStamp(cfg, c.db, v.now, v.cluster, c.frame.stamping);
    LeadsOn(cfg, given, v.(db := c.db), c.frame, d, w, out);
    LeadsOut(cfg, given, v.(db := d.db), d.frame.out, w, out);
  }

  /** A trade not yet delivered has neither entry nor receipt. */
  lemma Unstamped(cfg: Config, w: World, t: TradeId)
    requires WorldOk(cfg, w) && t in w.db.trades && w.db.trades[t].state !in {Recorded, Settled}
    ensures t !in w.db.receipts && forall i :: 0 <= i < |w.db.ledger| ==> w.db.ledger[i].trade != t
  {
    hide TradesOk, AcceptancesOk, RequestsOk, SettlementOk, ChainOk;
    if t in w.db.receipts { ReceiptIsDelivered(w.db, t); }
  }

  lemma RowFacts(cfg: Config, w: World, t: TradeId)
    requires WorldOk(cfg, w) && t in w.db.trades
    ensures w.db.trades[t].id == t && w.db.trades[t].buyer != w.db.trades[t].seller
  {
    hide AcceptancesOk, RequestsOk, SettlementOk, ChainOk, LedgerOk, ReceiptsOk;
  }

  predicate IsParty(tr: Trade, actor: AgentId) { actor == tr.buyer || actor == tr.seller }

  lemma StartLeads(cfg: Config, given: Option<Outside>, v: World, cmd: Command, w: World, out: Outcome)
    requires CalledOn(cfg, given, v, cmd, w, out) && !cmd.Create? && !cmd.SweepAccepted? && !cmd.SweepOpen?
    ensures cmd.id !in v.db.trades ==> Unmoved(v, w, out, Refused)
    ensures cmd.id in v.db.trades ==> Leads(cfg, given, v, Begun(cfg, cmd, v.db.trades[cmd.id], v.now), w, out)
  {
    hide Leads, Begun;
    var f := if cmd.id in v.db.trades then Begun(cfg, cmd, v.db.trades[cmd.id], v.now) else Returned(Refused);
    LeadsOn(cfg, given, v, Open(Start(cmd)), Effect(v.db, f), w, out);
    if cmd.id !in v.db.trades { LeadsOut(cfg, given, v, Refused, w, out); }
  }

  // ---------------------------------------------------------------- begin, dispute, resolve

  /** The call either moved the trade or left everything as it was. */
  ghost predicate Moves(v: World, t: TradeId, to: TradeState, agent: Actor, kind: EventType, w: World, out: Outcome)
    requires t in v.db.trades
  {
    w == v.(db := Moved(v.db, t, to, agent, kind, v.now)) && out == OkTrade(w.db.trades[t])
  }

  lemma PlainMove(cfg: Config, given: Option<Outside>, v: World, t: TradeId, agent: Actor, to: TradeState, kind: EventType, w: World, out: Outcome)
    requires t in v.db.trades && v.db.trades[t].id == t
    requires Leads(cfg, given, v, Move(Applying(v.db.trades[t], agent, to, kind, Return, v.now)), w, out)
    ensures Moves(v, t, to, agent, kind, w, out)
  {
    hide Leads;
    MoveLeads(cfg, given, v, Applying(v.db.trades[t], agent, to, kind, Return, v.now), w, out);
    var db := Moved(v.db, t, to, agent, kind, v.now);
    LeadsOut(cfg, given, v.(db := db), OkTrade(db.trades[t]), w, out);
  }

  /** A negotiation is begun by a party of a proposed trade; repeating it changes nothing. */
  lemma BeginDecides(cfg: Config, v: World, actor: AgentId, t: TradeId, w: World, out: Outcome)
    requires Calm(cfg, v) && Called(cfg, v, Begin(actor, t), w, out)
    ensures if t !in v.db.trades || !IsParty(v.db.trades[t], actor) then Unmoved(v, w, out, Refused)
            else match v.db.trades[t].state
                 case Proposed => Moves(v, t, Negotiating, Some(actor), EventNegotiating, w, out)
                 case Negotiating => Unmoved(v, w, out, OkTrade(v.db.trades[t]))
                 case _ => Unmoved(v, w, out, Refused)
  {
    hide Leads, Called, WorldOk, Fact, Moves;
    CalledIsLeads(cfg, None, v, Begin(actor, t), w, out);
    StartLeads(cfg, None, v, Begin(actor, t), w, out);
    if t in v.db.trades {
      RowFacts(cfg, v, t);
      var tr := v.db.trades[t];
      if tr.state == Proposed && IsParty(tr, actor) {
        PlainMove(cfg, None, v, t, Some(actor), Negotiating, EventNegotiating, w, out);
      } else {
        LeadsOut(cfg, None, v, Begun(cfg, Begin(actor, t), tr, v.now).out, w, out);
      }
    }
  }

  /** A dispute is raised by a party of an accepted or pending trade. */
  lemma DisputeDecides(cfg: Config, v: World, actor: AgentId, t: TradeId, w: World, out: Outcome)
    requires Calm(cfg, v) && Called(cfg, v, Dispute(actor, t), w, out)
    ensures if t !in v.db.trades || !IsParty(v.db.trades[t], actor) then Unmoved(v, w, out, Refused)
            else match v.db.trades[t].state
                 case Accepted => Moves(v, t, Disputed, Some(actor), EventDisputed, w, out)
                 case SettlementPending => Moves(v, t, Disputed, Some(actor), EventDisputed, w, out)
                 case Disputed => Unmoved(v, w, out, OkTrade(v.db.trades[t]))
                 case _ => Unmoved(v, w, out, Refused)
  {
    hide Leads, Called, WorldOk, Fact, Moves;
    CalledIsLeads(cfg, None, v, Dispute(actor, t), w, out);
    StartLeads(cfg, None, v, Dispute(actor, t), w, out);
    if t in v.db.trades {
      RowFacts(cfg, v, t);
      var tr := v.db.trades[t];
      if tr.state in {Accepted, SettlementPending} && IsParty(tr, actor) {
        PlainMove(cfg, None, v, t, Some(actor), Disputed, EventDisputed, w, out);
      } else {
        LeadsOut(cfg, None, v, Begun(cfg, Dispute(actor, t), tr, v.now).out, w, out);
      }
    }
  }

  /** The operator ends a dispute, in nobody's name. */
  lemma ResolveDecides(cfg: Config, v: World, t: TradeId, w: World, out: Outcome)
    requires Calm(cfg, v) && Called(cfg, v, Resolve(t), w, out)
    ensures if t !in v.db.trades then Unmoved(v, w, out, Refused)
            else match v.db.trades[t].state
                 case Disputed => Moves(v, t, Resolved, None, EventResolved, w, out)
                 case Resolved => Unmoved(v, w, out, OkTrade(v.db.trades[t]))
                 case _ => Unmoved(v, w, out, Refused)
  {
    hide Leads, Called, WorldOk, Fact, Moves;
    CalledIsLeads(cfg, None, v, Resolve(t), w, out);
    StartLeads(cfg, None, v, Resolve(t), w, out);
    if t in v.db.trades {
      RowFacts(cfg, v, t);
      var tr := v.db.trades[t];
      if tr.state == Disputed {
        PlainMove(cfg, None, v, t, None, Resolved, EventResolved, w, out);
      } else {
        LeadsOut(cfg, None, v, Begun(cfg, Resolve(t), tr, v.now).out, w, out);
      }
    }
  }

  // ---------------------------------------------------------------- accept

  function Other(tr: Trade, actor: AgentId): AgentId { if actor == tr.buyer then tr.seller else tr.buyer }

  /** The tables with one more acceptance. */
  function Agreed(db: Db, t: TradeId, actor: AgentId, now: Time): Db
  {
    db.(acceptances := db.acceptances[(t, actor) := now])
  }

  /** A party of a trade in negotiation accepts it once; with the other party's acceptance
      already stored that concludes the negotiation, and without it nothing moves. */
  lemma AcceptDecides(cfg: Config, v: World, actor: AgentId, t: TradeId, w: World, out: Outcome)
    requires Calm(cfg, v) && Called(cfg, v, Accept(actor, t), w, out)
    ensures if t !in v.db.trades || !IsParty(v.db.trades[t], actor) then Unmoved(v, w, out, Refused)
            else
              var tr := v.db.trades[t];
              if tr.state in {Accepted, Recorded} then Unmoved(v, w, out, OkTrade(tr))
              else if tr.state != Negotiating then Unmoved(v, w, out, Refused)
              else if (t, actor) in v.db.acceptances then Unmoved(v, w, out, OkTrade(tr))
              else if (t, Other(tr, actor)) in v.db.acceptances then
                Moves(v.(db := Agreed(v.db, t, actor, v.now)), t, Accepted, Some(actor), EventAccepted, w, out)
              else w == v.(db := Agreed(v.db, t, actor, v.now)) && out == OkTrade(tr)
  {
    hide Leads, Called, WorldOk, Fact, Moves;
    CalledIsLeads(cfg, None, v, Accept(actor, t), w, out);
    StartLeads(cfg, None, v, Accept(actor, t), w, out);
    if t in v.db.trades {
      RowFacts(cfg, v, t);
      var tr := v.db.trades[t];
      if tr.state == Negotiating && IsParty(tr, actor) {
        AcceptLeads(cfg, v, actor, t, w, out);
      } else {
        LeadsOut(cfg, None, v, Begun(cfg, Accept(actor, t), tr, v.now).out, w, out);
      }
    }
  }

  lemma AcceptLeads(cfg: Config, v: World, actor: AgentId, t: TradeId, w: World, out: Outcome)
    requires t in v.db.trades && v.db.trades[t].id == t && v.db.trades[t].buyer != v.db.trades[t].seller
    requires v.db.trades[t].state == Negotiating && IsParty(v.db.trades[t], actor)
    requires Leads(cfg, None, v, Agree(AcceptInsert(v.db.trades[t], actor, v.now)), w, out)
    ensures var tr := v.db.trades[t];
            if (t, actor) in v.db.acceptances then Unmoved(v, w, out, OkTrade(tr))
            else if (t, Other(tr, actor)) in v.db.acceptances then
              Moves(v.(db := Agreed(v.db, t, actor, v.now)), t, Accepted, Some(actor), EventAccepted, w, out)
            else w == v.(db := Agreed(v.db, t, actor, v.now)) && out == OkTrade(tr)
  {
    hide Leads, Moves, Acceptors;
    var tr := v.db.trades[t];
    var a := AdvanceAgree(v.db, v.now, AcceptInsert(tr, actor, v.now));
    LeadsOn(cfg, None, v, Agree(AcceptInsert(tr, actor, v.now)), a, w, out);
    var u := v.(db := a.db);
    if (t, actor) in v.db.acceptances {
      LeadsOn(cfg, None, v, a.frame, Effect(v.db, Returned(OkTrade(tr))), w, out);
      LeadsOut(cfg, None, v, OkTrade(tr), w, out);
    } else {
      assert a.db == Agreed(v.db, t, actor, v.now);
      LeadsOn(cfg, None, u, a.frame, Effect(u.db, Agree(AcceptCount(tr, actor))), w, out);
      CountedAcceptors(u.db, tr, actor);
      var c := AdvanceAgree(u.db, v.now, AcceptCount(tr, actor));
      LeadsOn(cfg, None, u, Agree(AcceptCount(tr, actor)), c, w, out);
      if (t, Other(tr, actor)) in v.db.acceptances {
        PlainMove(cfg, None, u, t, Some(actor), Accepted, EventAccepted, w, out);
      } else {
        LeadsOut(cfg, None, u, OkTrade(tr), w, out);
      }
    }
  }

  lemma CountedAcceptors(db: Db, tr: Trade, actor: AgentId)
    requires tr.buyer != tr.seller && IsParty(tr, actor) && (tr.id, actor) in db.acceptances
    ensures |Acceptors(db, tr)| == if (tr.id, Other(tr, actor)) in db.acceptances then 2 else 1
  {
    if (tr.id, Other(tr, actor)) in db.acceptances {
      assert Acceptors(db, tr) == {actor, Other(tr, actor)};
    } else {
      assert Acceptors(db, tr) == {actor};
    }
  }

  // ---------------------------------------------------------------- cancel

  /** Some request the buyer could still sign. */
  ghost predicate Signable(db: Db, t: TradeId, now: Time)
  {
    exists r :: r in db.requests && db.requests[r].trade == t && db.requests[r].status == Issued && now < db.requests[r].expiresAt
  }

  /** A deadline is configured, and an acceptance stored for the trade is at least that old. */
  ghost predicate Lapsed(cfg: Config, db: Db, t: TradeId, now: Time)
  {
    cfg.acceptTtl > 0 && exists a :: (t, a) in db.acceptances && db.acceptances[(t, a)] + cfg.acceptTtl <= now
  }

  lemma LapsedIsPastDeadline(cfg: Config, w: World, t: TradeId)
    requires WorldOk(cfg, w) && t in w.db.trades && w.db.trades[t].state == Accepted
    ensures PastDeadline(cfg, w.db, w.db.trades[t], w.now) <==> Lapsed(cfg, w.db, t, w.now)
  {
    hide RequestsOk, SettlementOk, ChainOk, LedgerOk, ReceiptsOk;
    var tr := w.db.trades[t];
    assert BothAccepted(w.db, tr);
    if PastDeadline(cfg, w.db, tr, w.now) {
      var a := if w.db.acceptances[(t, tr.buyer)] <= w.db.acceptances[(t, tr.seller)] then tr.buyer else tr.seller;
      assert (t, a) in w.db.acceptances && w.db.acceptances[(t, a)] + cfg.acceptTtl <= w.now;
    }
  }

  /** Who may cancel, and when: a party, nothing signable being out, an accepted trade only
      from the earliest acceptance plus the term on, and never without a term. */
  lemma CancelDecides(cfg: Config, v: World, actor: AgentId, t: TradeId, w: World, out: Outcome)
    requires Calm(cfg, v) && Called(cfg, v, Cancel(actor, t), w, out)
    ensures if t !in v.db.trades || !IsParty(v.db.trades[t], actor) then Unmoved(v, w, out, Refused)
            else
              var tr := v.db.trades[t];
              if tr.state == Cancelled then Unmoved(v, w, out, OkTrade(tr))
              else if !Signable(v.db, t, v.now)
                      && (tr.state in {Proposed, Negotiating, SettlementPending}
                          || (tr.state == Accepted && Lapsed(cfg, v.db, t, v.now)))
              then Moves(v, t, Cancelled, Some(actor), EventCancelled, w, out)
              else Unmoved(v, w, out, Refused)
  {
    hide Leads, Called, WorldOk, Fact, Moves, Signable, Lapsed, HasLiveRequest, PastDeadline;
    CalledIsLeads(cfg, None, v, Cancel(actor, t), w, out);
    StartLeads(cfg, None, v, Cancel(actor, t), w, out);
    if t in v.db.trades {
      RowFacts(cfg, v, t);
      var tr := v.db.trades[t];
      if IsParty(tr, actor) && tr.state != Cancelled {
        CancelLeads(cfg, v, actor, t, w, out);
      } else {
        LeadsOut(cfg, None, v, Begun(cfg, Cancel(actor, t), tr, v.now).out, w, out);
      }
    }
  }

  lemma SignableIsLive(cfg: Config, w: World, t: TradeId)
    requires Fact(cfg, w.db, w.now, IDLE)
    ensures Signable(w.db, t, w.now) <==> cfg.settlement && HasLiveRequest(w.db, t, w.now)
  {
    hide Quiet, Logged, SettledAreSigned;
    if Signable(w.db, t, w.now) {
      var r :| r in w.db.requests && w.db.requests[r].trade == t && w.db.requests[r].status == Issued && w.now < w.db.requests[r].expiresAt;
      assert w.db.requests[r].Live(w.now);
    }
    if HasLiveRequest(w.db, t, w.now) {
      var r :| r in w.db.requests && w.db.requests[r].trade == t && w.db.requests[r].Live(w.now);
    }
  }

  lemma CancelLeads(cfg: Config, v: World, actor: AgentId, t: TradeId, w: World, out: Outcome)
    requires Calm(cfg, v) && t in v.db.trades && v.db.trades[t].id == t
    requires Leads(cfg, None, v, Leave(CancelLive(v.db.trades[t], actor)), w, out)
    ensures var tr := v.db.trades[t];
            if !Signable(v.db, t, v.now)
               && (tr.state in {Proposed, Negotiating, SettlementPending} || (tr.state == Accepted && Lapsed(cfg, v.db, t, v.now)))
            then Moves(v, t, Cancelled, Some(actor), EventCancelled, w, out)
            else Unmoved(v, w, out, Refused)
  {
    hide Leads, WorldOk, Fact, Moves, Signable, Lapsed, HasLiveRequest, PastDeadline;
    SignableIsLive(cfg, v, t);
    var tr := v.db.trades[t];
    var a := AdvanceLeave(cfg, v.db, v.now, v.cluster, CancelLive(tr, actor), NOTHING);
    LeadsOn(cfg, None, v, Leave(CancelLive(tr, actor)), a, w, out);
    var g := a.frame;
    if g.Leave? {
      LapsedIsPastDeadline(cfg, v, t);
      var b := AdvanceLeave(cfg, v.db, v.now, v.cluster, CancelDeadline(tr, actor), NOTHING);
      LeadsOn(cfg, None, v, g, b, w, out);
      g := b.frame;
    }
    if g.Move? {
      PlainMove(cfg, None, v, t, Some(actor), Cancelled, EventCancelled, w, out);
    } else {
      LeadsOut(cfg, None, v, Refused, w, out);
    }
  }

  const NOTHING := Env(None, false, 0, 0, 0, NotFound, [])

  // ---------------------------------------------------------------- record

  /** What a buyer is allowed to commit: with caps configured, what the check admits, the
      trade itself left out of what it counts. */
  predicate Affordable(cfg: Config, db: Db, t: TradeId, now: Time)
    requires t in db.trades
  {
    cfg.capped ==> cfg.admits(db, db.trades[t], Some(t), now)
  }

  /** A recorded trade is one entry longer a chain and one receipt that names it, unsigned. */
  lemma RecordDecides(cfg: Config, v: World, actor: AgentId, t: TradeId, w: World, out: Outcome)
    requires Calm(cfg, v) && Called(cfg, v, Record(actor, t), w, out)
    ensures if t !in v.db.trades || !IsParty(v.db.trades[t], actor) then Unmoved(v, w, out, Refused)
            else
              var tr := v.db.trades[t];
              if tr.state == Recorded then
                Unmoved(v, w, out, if t in v.db.receipts then OkRepeat(tr, v.db.receipts[t]) else Refused)
              else if tr.state != Accepted || !Affordable(cfg, v.db, t, v.now) then Unmoved(v, w, out, Refused)
              else
                && w == v.(db := Receipted(cfg.hasher, Moved(v.db, t, Recorded, Some(actor), EventRecorded, v.now), t, None, v.cluster, v.now))
                && out == OkReceipt(w.db.receipts[t])
  {
    hide Leads, Called, WorldOk, Fact, Moved, Receipted;
    CalledIsLeads(cfg, None, v, Record(actor, t), w, out);
    StartLeads(cfg, None, v, Record(actor, t), w, out);
    if t in v.db.trades {
      RowFacts(cfg, v, t);
      var tr := v.db.trades[t];
      if !IsParty(tr, actor) {
        LeadsOut(cfg, None, v, Refused, w, out);
      } else if tr.state == Recorded {
        RepeatLeads(cfg, None, v, t, w, out);
      } else {
        RecordLeads(cfg, v, actor, t, w, out);
      }
    }
  }

  lemma RepeatLeads(cfg: Config, given: Option<Outside>, v: World, t: TradeId, w: World, out: Outcome)
    requires t in v.db.trades && v.db.trades[t].id == t && Leads(cfg, given, v, Open(Repeating(v.db.trades[t])), w, out)
    ensures Unmoved(v, w, out, if t in v.db.receipts then OkRepeat(v.db.trades[t], v.db.receipts[t]) else Refused)
  {
    hide Leads;
    var tr := v.db.trades[t];
    var answer := if t in v.db.receipts then OkRepeat(tr, v.db.receipts[t]) else Refused;
    LeadsOn(cfg, given, v, Open(Repeating(tr)), Effect(v.db, Returned(answer)), w, out);
    LeadsOut(cfg, given, v, answer, w, out);
  }

  lemma RecordLeads(cfg: Config, v: World, actor: AgentId, t: TradeId, w: World, out: Outcome)
    requires WorldOk(cfg, v) && t in v.db.trades && v.db.trades[t].id == t && v.db.trades[t].state != Recorded
    requires Leads(cfg, None, v, Leave(Spending(v.db.trades[t], actor, false)), w, out)
    ensures if v.db.trades[t].state != Accepted || !Affordable(cfg, v.db, t, v.now) then Unmoved(v, w, out, Refused)
            else
              && w == v.(db := Receipted(cfg.hasher, Moved(v.db, t, Recorded, Some(actor), EventRecorded, v.now), t, None, v.cluster, v.now))
              && out == OkReceipt(w.db.receipts[t])
  {
    hide Leads, WorldOk, Receipted;
    var tr := v.db.trades[t];
    var a := AdvanceLeave(cfg, v.db, v.now, v.cluster, Spending(tr, actor, false), NOTHING);
    LeadsOn(cfg, None, v, Leave(Spending(tr, actor, false)), a, w, out);
    if a.frame.Move? {
      Unstamped(cfg, v, t);
      MoveLeads(cfg, None, v, a.frame.moving, w, out);
      var db := Moved(v.db, t, Recorded, Some(actor), EventRecorded, v.now);
      StampLeads(cfg, None, v.(db := db), t, None, w, out);
    } else {
      LeadsOut(cfg, None, v, Refused, w, out);
    }
  }

  // ---------------------------------------------------------------- create

  /** A new trade stored as of now, proposed by whoever called. */
  function Proposing(db: Db, row: Trade, actor: AgentId, now: Time): Db
  {
    db.(trades := db.trades[row.id := row],
        events := db.events + [Event(row.id, Some(actor), EventProposed, None, Proposed, now)])
  }

  /** A key already used answers with the trade it made. Otherwise the trade the offer makes
      is stored as of now, if it makes one, its identifier is new, and the cap admits it
      beside everything its buyer holds. */
  lemma CreateDecides(cfg: Config, given: Outside, v: World, offer: OfferId, actor: AgentId, key: Option<Key>, w: World, out: Outcome)
    requires Calm(cfg, v) && CalledOn(cfg, Some(given), v, Create(offer, actor, key), w, out)
    ensures if key.Some? && exists t :: t in v.db.trades && v.db.trades[t].key == key then
              w == v && out.OkTrade? && out.tr.key == key && out.tr.id in v.db.trades && v.db.trades[out.tr.id] == out.tr
            else if given.draft.None? || given.draft.value.id in v.db.trades
                    || (cfg.capped && !cfg.admits(v.db, given.draft.value, None, v.now)) then Unmoved(v, w, out, Refused)
            else
              var row := given.draft.value.(createdAt := v.now, updatedAt := v.now);
              w == v.(db := Proposing(v.db, row, actor, v.now)) && out == OkTrade(row)
              && row.state == Proposed && row.Party(actor) && row.buyer != row.seller && row.offer == offer && row.key == key
  {
    hide Leads, WorldOk, Fact;
    var f := Open(Start(Create(offer, actor, key)));
    var e := LeadsNext(cfg, Some(given), v, f, w, out);
    assert v.landed + {} == v.landed;
    var g := AdvanceOpen(cfg, v.db, v.now, f.opening, e).frame;
    if g.Returned? {
      LeadsOut(cfg, Some(given), v, g.out, w, out);
      if KeyTaken(v.db, key) { KeyRow(cfg, v, key, out.tr); }
    } else {
      ReserveLeads(cfg, given, v, given.draft.value, actor, g, w, out);
    }
  }

  lemma KeyRow(cfg: Config, w: World, key: Option<Key>, tr: Trade)
    requires WorldOk(cfg, w) && exists t :: t in w.db.trades && w.db.trades[t].key == key && w.db.trades[t] == tr
    ensures tr.id in w.db.trades && w.db.trades[tr.id] == tr
  {
    hide AcceptancesOk, RequestsOk, SettlementOk, ChainOk, LedgerOk, ReceiptsOk;
  }

  lemma ReserveLeads(cfg: Config, given: Outside, v: World, draft: Trade, actor: AgentId, f: Frame, w: World, out: Outcome)
    requires f == if cfg.capped then Open(CreateLock(draft, actor))
                  else Open(CreateInsert(draft.(createdAt := v.now, updatedAt := v.now), actor))
    requires Leads(cfg, Some(given), v, f, w, out) && !KeyTaken(v.db, draft.key)
    ensures if draft.id in v.db.trades || (cfg.capped && !cfg.admits(v.db, draft, None, v.now)) then Unmoved(v, w, out, Refused)
            else
              var row := draft.(createdAt := v.now, updatedAt := v.now);
              w == v.(db := Proposing(v.db, row, actor, v.now)) && out == OkTrade(row)
  {
    hide Leads, KeyTaken;
    var row := draft.(createdAt := v.now, updatedAt := v.now);
    if cfg.capped {
      LeadsOn(cfg, Some(given), v, f, Effect(v.db, Open(CreateCheck(draft, actor))), w, out);
      var next := if cfg.admits(v.db, draft, None, v.now) then Open(CreateInsert(row, actor)) else Returned(Refused);
      LeadsOn(cfg, Some(given), v, Open(CreateCheck(draft, actor)), Effect(v.db, next), w, out);
      if next.Returned? {
        LeadsOut(cfg, Some(given), v, Refused, w, out);
      } else {
        StoreLeads(cfg, given, v, row, actor, w, out);
      }
    } else {
      StoreLeads(cfg, given, v, row, actor, w, out);
    }
  }

  lemma StoreLeads(cfg: Config, given: Outside, v: World, row: Trade, actor: AgentId, w: World, out: Outcome)
    requires Leads(cfg, Some(given), v, Open(CreateInsert(row, actor)), w, out) && !KeyTaken(v.db, row.key)
    ensures if row.id in v.db.trades then Unmoved(v, w, out, Refused)
            else w == v.(db := Proposing(v.db, row, actor, v.now)) && out == OkTrade(row)
  {
    hide Leads, KeyTaken;
    var f := Open(CreateInsert(row, actor));
    var a := Effect(InsertTrade(v.db, row), if CanInsert(v.db, row) then Open(CreateLog(row, actor, v.now)) else Returned(Refused));
    LeadsOn(cfg, Some(given), v, f, a, w, out);
    if a.frame.Returned? {
      LeadsOut(cfg, Some(given), v, Refused, w, out);
    } else {
      var u := v.(db := a.db);
      var db := AppendEvent(a.db, Event(row.id, Some(actor), EventProposed, None, Proposed, v.now));
      LeadsOn(cfg, Some(given), u, a.frame, Effect(db, Returned(OkTrade(row))), w, out);
      LeadsOut(cfg, Some(given), v.(db := db), OkTrade(row), w, out);
    }
  }
}
