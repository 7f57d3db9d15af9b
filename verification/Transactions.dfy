/** Each store transaction, under the assertion of the frame that issues it, keeps the
    table invariants and only grows the tables. */
module Transactions {
  import opened Options
  import opened Domain
  import opened Tables
  import opened Protocol
  import opened Safety

  // ---------------------------------------------------------------- parts that read unchanged tables

  lemma GrowsRefl(db: Db)
    ensures Grows(db, db)
  {
  }

  lemma TradesCarry(v: Db, w: Db, now: Time)
    requires TradesOk(v, now) && v.trades == w.trades
    ensures TradesOk(w, now) && TradesGrow(v.trades, w.trades)
  {
  }

  lemma AcceptancesCarry(v: Db, w: Db, now: Time)
    requires AcceptancesOk(v, now) && v.trades == w.trades && v.acceptances == w.acceptances
    ensures AcceptancesOk(w, now)
  {
  }

  lemma RequestsCarry(v: Db, w: Db)
    requires RequestsOk(v) && v.trades == w.trades && v.requests == w.requests
    ensures RequestsOk(w) && RequestsGrow(v.requests, w.requests)
  {
  }

  lemma LedgerCarry(v: Db, w: Db)
    requires LedgerOk(v) && v.trades == w.trades && v.ledger == w.ledger
    ensures LedgerOk(w)
  {
  }

  /** Facts about requests that survive every change requests may make. */
  lemma SettlementCarries(cfg: Config, v: Db, w: Db, landed: set<(Signature, Transaction)>)
    requires SettlementOk(cfg, v, landed) && v.trades == w.trades && RequestsGrow(v.requests, w.requests)
    ensures SettlementOk(cfg, w, landed)
  {
    hide RequestsGrow, HasRequest, Evidence, Proven;
    forall t | t in w.trades && w.trades[t].state == SettlementPending ensures HasRequest(w, t) {
      HasRequestStable(v, w, t);
    }
    forall t | t in w.trades && w.trades[t].state == Settled
      ensures exists sig, cluster :: Evidence(w, t, sig, cluster) && Proven(cfg, landed, w.trades[t], sig)
    {
      var sig, cluster :| Evidence(v, t, sig, cluster) && Proven(cfg, landed, v.trades[t], sig);
      EvidenceStable(v, w, t, sig, cluster);
    }
  }

  /** A receipt survives when its trade's row, its entry and its request do. */
  lemma ReceiptCarries(v: Db, w: Db, t: TradeId)
    requires t in v.receipts && ReceiptOk(v, t) && t in w.receipts && v.receipts[t] == w.receipts[t]
    requires RequestsGrow(v.requests, w.requests) && v.ledger <= w.ledger
    requires t in v.trades && t in w.trades && v.trades[t].state == w.trades[t].state
    ensures ReceiptOk(w, t)
  {
    hide Evidence, RequestsGrow;
    if w.receipts[t].signature.Some? {
      EvidenceStable(v, w, t, w.receipts[t].signature.value, w.receipts[t].cluster.value);
    }
  }

  lemma ReceiptsCarry(v: Db, w: Db)
    requires ReceiptsOk(v) && v.trades == w.trades && v.receipts == w.receipts && v.ledger <= w.ledger
    requires RequestsGrow(v.requests, w.requests)
    ensures ReceiptsOk(w)
  {
    hide ReceiptOk, RequestsGrow;
    forall t | t in w.receipts ensures ReceiptOk(w, t) {
      ReceiptHasTrade(v, t);
      ReceiptCarries(v, w, t);
    }
  }

  // ---------------------------------------------------------------- requests

  /** Any change to requests alone that grows them and keeps their own invariant. */
  lemma RequestChangeKeeps(cfg: Config, v: Db, w: Db, now: Time, landed: set<(Signature, Transaction)>)
    requires DbOk(cfg, v, now, landed) && w == v.(requests := w.requests)
    requires RequestsGrow(v.requests, w.requests) && RequestsOk(w)
    ensures DbOk(cfg, w, now, landed) && Grows(v, w)
  {
    hide TradesOk, AcceptancesOk, RequestsOk, SettlementOk, ChainOk, LedgerOk, ReceiptsOk, RequestsGrow, TradesGrow;
    TradesCarry(v, w, now);
    AcceptancesCarry(v, w, now);
    LedgerCarry(v, w);
    SettlementCarries(cfg, v, w, landed);
    ReceiptsCarry(v, w);
  }

  lemma ExpireKeeps(cfg: Config, db: Db, now: Time, landed: set<(Signature, Transaction)>, id: TradeId)
    requires DbOk(cfg, db, now, landed)
    ensures DbOk(cfg, ExpireRequests(db, id), now, landed) && Grows(db, ExpireRequests(db, id))
  {
    hide TradesOk, AcceptancesOk, RequestsOk, SettlementOk, ChainOk, LedgerOk, ReceiptsOk, Grows;
    ExpireRows(db, id);
    RequestChangeKeeps(cfg, db, ExpireRequests(db, id), now, landed);
  }

  lemma ExpireRows(db: Db, id: TradeId)
    requires RequestsOk(db)
    ensures RequestsOk(ExpireRequests(db, id)) && RequestsGrow(db.requests, ExpireRequests(db, id).requests)
  {
    hide Reaches;
  }

  lemma CreateRequestKeeps(cfg: Config, db: Db, now: Time, landed: set<(Signature, Transaction)>, r: Request)
    requires DbOk(cfg, db, now, landed)
    requires r.id !in db.requests && r.status == Issued && r.trade in db.trades
    requires db.trades[r.trade].mode == Onchain && Reaches(Accepted, db.trades[r.trade].state)
    ensures DbOk(cfg, CreateRequest(db, r), now, landed) && Grows(db, CreateRequest(db, r))
  {
    hide TradesOk, AcceptancesOk, RequestsOk, SettlementOk, ChainOk, LedgerOk, ReceiptsOk, Grows;
    ExpireRows(db, r.trade);
    InsertRequestRows(ExpireRequests(db, r.trade), r);
    RequestsGrowTrans(db.requests, ExpireRequests(db, r.trade).requests, CreateRequest(db, r).requests);
    RequestChangeKeeps(cfg, db, CreateRequest(db, r), now, landed);
  }

  lemma RequestsGrowTrans(a: map<RequestId, Request>, b: map<RequestId, Request>, c: map<RequestId, Request>)
    requires RequestsGrow(a, b) && RequestsGrow(b, c)
    ensures RequestsGrow(a, c)
  {
  }

  /** With every issued request of the trade retired, a new one is the only one. */
  lemma InsertRequestRows(db: Db, r: Request)
    requires RequestsOk(db) && r.id !in db.requests && r.status == Issued && r.trade in db.trades
    requires db.trades[r.trade].mode == Onchain && Reaches(Accepted, db.trades[r.trade].state)
    requires forall q :: q in db.requests ==> !IssuedFor(db.requests[q], r.trade)
    ensures var w := db.(requests := db.requests[r.id := r]);
            RequestsOk(w) && RequestsGrow(db.requests, w.requests)
  {
    hide Reaches;
    var w := db.(requests := db.requests[r.id := r]);
    assert RequestRowsOk(w) by { hide OneIssued; }
    assert OneIssued(w.requests) by { hide RequestRowsOk; }
    assert RequestsGrow(db.requests, w.requests) by { hide RequestRowsOk, OneIssued; }
    hide RequestRowsOk, OneIssued, RequestsGrow;
  }

  /** A growing change to a single request. */
  lemma OneRequestRows(db: Db, w: Db, cur: RequestId)
    requires RequestsOk(db)
    requires w == db || (cur in db.requests && cur in w.requests
                         && w == db.(requests := db.requests[cur := w.requests[cur]])
                         && RequestGrows(db.requests[cur], w.requests[cur])
                         && (w.requests[cur].status == Confirmed ==> w.requests[cur].signature.Some?)
                         && (w.requests[cur].status == Issued ==> db.requests[cur].status == Issued))
    ensures RequestsOk(w) && RequestsGrow(db.requests, w.requests)
  {
    hide Reaches;
    assert RequestRowsOk(w) by { hide OneIssued; }
    assert OneIssued(w.requests) by { hide RequestRowsOk; }
    assert RequestsGrow(db.requests, w.requests) by { hide RequestRowsOk, OneIssued; }
    hide RequestRowsOk, OneIssued, RequestsGrow;
  }

  lemma SignKeeps(cfg: Config, db: Db, now: Time, landed: set<(Signature, Transaction)>, cur: RequestId, sig: Signature)
    requires DbOk(cfg, db, now, landed)
    ensures DbOk(cfg, SignRequest(db, cur, sig), now, landed) && Grows(db, SignRequest(db, cur, sig))
  {
    hide TradesOk, AcceptancesOk, RequestsOk, SettlementOk, ChainOk, LedgerOk, ReceiptsOk, Grows;
    OneRequestRows(db, SignRequest(db, cur, sig), cur);
    RequestChangeKeeps(cfg, db, SignRequest(db, cur, sig), now, landed);
  }

  /** Confirming under the signature the request already carries overwrites nothing. */
  lemma ConfirmKeeps(cfg: Config, db: Db, now: Time, landed: set<(Signature, Transaction)>, cur: RequestId, sig: Signature)
    requires DbOk(cfg, db, now, landed) && cur in db.requests && db.requests[cur].signature == Some(sig)
    ensures DbOk(cfg, ConfirmRequest(db, cur, sig), now, landed) && Grows(db, ConfirmRequest(db, cur, sig))
  {
    hide TradesOk, AcceptancesOk, RequestsOk, SettlementOk, ChainOk, LedgerOk, ReceiptsOk, Grows;
    OneRequestRows(db, ConfirmRequest(db, cur, sig), cur);
    RequestChangeKeeps(cfg, db, ConfirmRequest(db, cur, sig), now, landed);
  }

  // ---------------------------------------------------------------- events and acceptances

  lemma EventKeeps(cfg: Config, db: Db, now: Time, landed: set<(Signature, Transaction)>, e: Event)
    requires DbOk(cfg, db, now, landed)
    ensures DbOk(cfg, AppendEvent(db, e), now, landed) && Grows(db, AppendEvent(db, e))
  {
    hide TradesOk, AcceptancesOk, RequestsOk, SettlementOk, ChainOk, LedgerOk, ReceiptsOk, RequestsGrow, TradesGrow;
    var w := AppendEvent(db, e);
    TradesCarry(db, w, now);
    AcceptancesCarry(db, w, now);
    RequestsCarry(db, w);
    LedgerCarry(db, w);
    SettlementCarries(cfg, db, w, landed);
    ReceiptsCarry(db, w);
  }

  lemma AcceptanceKeeps(cfg: Config, db: Db, now: Time, landed: set<(Signature, Transaction)>,
                        id: TradeId, agent: AgentId, at: Time)
    requires DbOk(cfg, db, now, landed) && id in db.trades && db.trades[id].Party(agent) && at <= now
    ensures DbOk(cfg, InsertAcceptance(db, id, agent, at), now, landed)
    ensures Grows(db, InsertAcceptance(db, id, agent, at))
  {
    hide TradesOk, AcceptancesOk, RequestsOk, SettlementOk, ChainOk, LedgerOk, ReceiptsOk, RequestsGrow, TradesGrow;
    var w := InsertAcceptance(db, id, agent, at);
    TradesCarry(db, w, now);
    AcceptanceRows(db, id, agent, at, now);
    RequestsCarry(db, w);
    LedgerCarry(db, w);
    SettlementCarries(cfg, db, w, landed);
    ReceiptsCarry(db, w);
  }

  lemma AcceptanceRows(db: Db, id: TradeId, agent: AgentId, at: Time, now: Time)
    requires AcceptancesOk(db, now) && id in db.trades && db.trades[id].Party(agent) && at <= now
    ensures AcceptancesOk(InsertAcceptance(db, id, agent, at), now)
  {
    hide Engaged, BothAccepted, AcceptedBy;
    var w := InsertAcceptance(db, id, agent, at);
    forall t | t in w.trades
      ensures Engaged(w.trades[t].state) ==> BothAccepted(w, w.trades[t])
      ensures w.trades[t].state == Accepted ==> AcceptedBy(w, w.trades[t], w.trades[t].updatedAt)
    {
      MoreAcceptances(db, w, w.trades[t], w.trades[t].updatedAt);
    }
  }

  lemma MoreAcceptances(v: Db, w: Db, tr: Trade, at: Time)
    requires forall k :: k in v.acceptances ==> k in w.acceptances && v.acceptances[k] == w.acceptances[k]
    ensures BothAccepted(v, tr) ==> BothAccepted(w, tr)
    ensures AcceptedBy(v, tr, at) ==> AcceptedBy(w, tr, at)
  {
  }

  // ---------------------------------------------------------------- inserting a trade

  lemma InsertKeeps(cfg: Config, db: Db, now: Time, landed: set<(Signature, Transaction)>, tr: Trade)
    requires DbOk(cfg, db, now, landed) && DraftOk(tr) && tr.updatedAt <= now
    ensures DbOk(cfg, InsertTrade(db, tr), now, landed) && Grows(db, InsertTrade(db, tr))
  {
    hide TradesOk, AcceptancesOk, RequestsOk, SettlementOk, ChainOk, LedgerOk, ReceiptsOk, RequestsGrow, TradesGrow;
    InsertRows(db, now, tr);
    InsertAcceptanceRows(db, now, tr);
    InsertRequestRefs(db, tr);
    InsertSettlement(cfg, db, landed, tr);
    InsertLedgerRefs(db, tr);
    InsertReceipts(db, tr);
  }

  lemma InsertRows(db: Db, now: Time, tr: Trade)
    requires TradesOk(db, now) && DraftOk(tr) && tr.updatedAt <= now
    ensures TradesOk(InsertTrade(db, tr), now) && TradesGrow(db.trades, InsertTrade(db, tr).trades)
  {
  }

  lemma InsertAcceptanceRows(db: Db, now: Time, tr: Trade)
    requires AcceptancesOk(db, now) && DraftOk(tr)
    ensures AcceptancesOk(InsertTrade(db, tr), now)
  {
  }

  lemma InsertRequestRefs(db: Db, tr: Trade)
    requires RequestsOk(db)
    ensures RequestsOk(InsertTrade(db, tr)) && RequestsGrow(db.requests, InsertTrade(db, tr).requests)
  {
    hide Reaches;
  }

  lemma InsertSettlement(cfg: Config, db: Db, landed: set<(Signature, Transaction)>, tr: Trade)
    requires SettlementOk(cfg, db, landed) && DraftOk(tr)
    ensures SettlementOk(cfg, InsertTrade(db, tr), landed)
  {
    hide HasRequest, Evidence, Proven;
    var w := InsertTrade(db, tr);
    forall t | t in w.trades && w.trades[t].state == SettlementPending ensures HasRequest(w, t) {
      HasRequestStable(db, w, t);
    }
    forall t | t in w.trades && w.trades[t].state == Settled
      ensures exists sig, cluster :: Evidence(w, t, sig, cluster) && Proven(cfg, landed, w.trades[t], sig)
    {
      var sig, cluster :| Evidence(db, t, sig, cluster) && Proven(cfg, landed, db.trades[t], sig);
      EvidenceStable(db, w, t, sig, cluster);
    }
  }

  lemma InsertLedgerRefs(db: Db, tr: Trade)
    requires LedgerOk(db)
    ensures LedgerOk(InsertTrade(db, tr))
  {
  }

  lemma InsertReceipts(db: Db, tr: Trade)
    requires ReceiptsOk(db)
    ensures ReceiptsOk(InsertTrade(db, tr))
  {
    hide ReceiptOk;
    var w := InsertTrade(db, tr);
    forall t | t in w.receipts ensures ReceiptOk(w, t) {
      ReceiptHasTrade(db, t);
      ReceiptCarries(db, w, t);
    }
  }

  lemma ReceiptHasTrade(db: Db, t: TradeId)
    requires t in db.receipts && ReceiptOk(db, t)
    ensures t in db.trades
  {
  }

  // ---------------------------------------------------------------- compare-and-set

  /** The compare-and-set: guarded by the copy, it moves the stored row along an edge. */
  lemma CasKeeps(cfg: Config, w: World, tr: Trade, to: TradeState, cont: Cont, at: Time)
    requires DbOk(cfg, w.db, w.now, w.landed) && ApplyOk(cfg, w, tr, to, cont, at)
    ensures DbOk(cfg, CasState(w.db, tr.id, tr.state, to, at), w.now, w.landed)
    ensures Grows(w.db, CasState(w.db, tr.id, tr.state, to, at))
  {
    hide TradesOk, AcceptancesOk, RequestsOk, SettlementOk, ChainOk, LedgerOk, ReceiptsOk,
         RequestsGrow, TradesGrow, ApplyOk;
    if CasApplies(w.db, tr.id, tr.state) {
      CasRows(cfg, w, tr, to, cont, at);
      CasAcceptances(cfg, w, tr, to, cont, at);
      CasRequests(cfg, w, tr, to, cont, at);
      CasSettlement(cfg, w, tr, to, cont, at);
      CasLedger(cfg, w, tr, to, cont, at);
      CasReceipts(cfg, w, tr, to, cont, at);
    } else {
      GrowsRefl(w.db);
    }
  }

  lemma EdgeFacts(from: TradeState, to: TradeState)
    requires Edge(from, to)
    ensures from != to && Reaches(from, to) && !Reaches(to, from) && !Delivered(from)
    ensures Engaged(to) ==> to == Accepted || Engaged(from)
    ensures to == Accepted ==> from == Negotiating
    ensures Reaches(Accepted, from) ==> Reaches(Accepted, to)
  {
  }

  lemma CasRows(cfg: Config, w: World, tr: Trade, to: TradeState, cont: Cont, at: Time)
    requires TradesOk(w.db, w.now) && ApplyOk(cfg, w, tr, to, cont, at) && CasApplies(w.db, tr.id, tr.state)
    ensures var db := CasState(w.db, tr.id, tr.state, to, at);
            TradesOk(db, w.now) && TradesGrow(w.db.trades, db.trades)
  {
    hide ContOk, Proven, HasRequest, AcceptedBy;
    EdgeFacts(tr.state, to);
  }

  lemma CasAcceptances(cfg: Config, w: World, tr: Trade, to: TradeState, cont: Cont, at: Time)
    requires TradesOk(w.db, w.now) && AcceptancesOk(w.db, w.now)
    requires ApplyOk(cfg, w, tr, to, cont, at) && CasApplies(w.db, tr.id, tr.state)
    ensures AcceptancesOk(CasState(w.db, tr.id, tr.state, to, at), w.now)
  {
    hide TradesOk, ApplyOk, Engaged, BothAccepted, AcceptedBy;
    var v, db := w.db, CasState(w.db, tr.id, tr.state, to, at);
    assert forall t :: t in db.trades && t != tr.id ==> db.trades[t] == v.trades[t];
    CasAccepted(cfg, w, tr, to, cont, at);
    forall t | t in db.trades
      ensures Engaged(db.trades[t].state) ==> BothAccepted(db, db.trades[t])
      ensures db.trades[t].state == Accepted ==> AcceptedBy(db, db.trades[t], db.trades[t].updatedAt)
    {
      SameAcceptances(v, db, v.trades[t], db.trades[t].updatedAt);
    }
  }

  lemma SameAcceptances(v: Db, w: Db, tr: Trade, at: Time)
    requires v.acceptances == w.acceptances
    ensures BothAccepted(v, tr) == BothAccepted(w, tr) && AcceptedBy(v, tr, at) == AcceptedBy(w, tr, at)
  {
  }

  /** The moved row itself: accepted only on two acceptances stamped no later. */
  lemma CasAccepted(cfg: Config, w: World, tr: Trade, to: TradeState, cont: Cont, at: Time)
    requires AcceptancesOk(w.db, w.now) && TradesOk(w.db, w.now)
    requires ApplyOk(cfg, w, tr, to, cont, at) && CasApplies(w.db, tr.id, tr.state)
    ensures var db := CasState(w.db, tr.id, tr.state, to, at);
            && (Engaged(to) ==> BothAccepted(db, db.trades[tr.id]))
            && (to == Accepted ==> AcceptedBy(db, db.trades[tr.id], at))
  {
    hide ContOk, Proven, HasRequest;
    EdgeFacts(tr.state, to);
  }

  lemma CasRequests(cfg: Config, w: World, tr: Trade, to: TradeState, cont: Cont, at: Time)
    requires RequestsOk(w.db) && ApplyOk(cfg, w, tr, to, cont, at) && CasApplies(w.db, tr.id, tr.state)
    ensures var db := CasState(w.db, tr.id, tr.state, to, at);
            RequestsOk(db) && RequestsGrow(w.db.requests, db.requests)
  {
    hide ContOk, Proven, HasRequest, AcceptedBy;
    EdgeFacts(tr.state, to);
    hide Reaches, Edge;
  }

  lemma CasSettlement(cfg: Config, w: World, tr: Trade, to: TradeState, cont: Cont, at: Time)
    requires SettlementOk(cfg, w.db, w.landed) && ApplyOk(cfg, w, tr, to, cont, at)
    requires CasApplies(w.db, tr.id, tr.state)
    ensures SettlementOk(cfg, CasState(w.db, tr.id, tr.state, to, at), w.landed)
  {
    hide HasRequest, Evidence, AcceptedBy, Reaches, Edge;
    var v, db := w.db, CasState(w.db, tr.id, tr.state, to, at);
    forall t | t in db.trades && db.trades[t].state == SettlementPending
      ensures db.trades[t].mode == Onchain && HasRequest(db, t)
    {
      HasRequestStable(v, db, t);
    }
    forall t | t in db.trades && db.trades[t].state == Settled
      ensures db.trades[t].mode == Onchain
      ensures exists sig, cluster :: Evidence(db, t, sig, cluster) && Proven(cfg, w.landed, db.trades[t], sig)
    {
      var sig, cluster :|
        Evidence(v, t, sig, cluster) && Proven(cfg, w.landed, if t == tr.id && CasApplies(v, tr.id, tr.state) then tr else v.trades[t], sig);
      EvidenceStable(v, db, t, sig, cluster);
      SameTermsProven(cfg, w.landed, v.trades[t], db.trades[t], sig);
    }
  }

  lemma SameTermsProven(cfg: Config, landed: set<(Signature, Transaction)>, a: Trade, b: Trade, sig: Signature)
    requires TermsOf(a) == TermsOf(b)
    ensures Proven(cfg, landed, a, sig) == Proven(cfg, landed, b, sig)
  {
  }

  lemma CasLedger(cfg: Config, w: World, tr: Trade, to: TradeState, cont: Cont, at: Time)
    requires LedgerOk(w.db) && ApplyOk(cfg, w, tr, to, cont, at) && CasApplies(w.db, tr.id, tr.state)
    ensures LedgerOk(CasState(w.db, tr.id, tr.state, to, at))
  {
    hide ContOk, Proven, HasRequest, AcceptedBy;
    EdgeFacts(tr.state, to);
  }

  lemma CasReceipts(cfg: Config, w: World, tr: Trade, to: TradeState, cont: Cont, at: Time)
    requires ReceiptsOk(w.db) && LedgerOk(w.db) && ApplyOk(cfg, w, tr, to, cont, at)
    requires CasApplies(w.db, tr.id, tr.state) && RequestsOk(w.db)
    ensures ReceiptsOk(CasState(w.db, tr.id, tr.state, to, at))
  {
    hide ReceiptOk, LedgerOk, RequestsOk, RequestsGrow, ContOk, Proven, HasRequest, AcceptedBy;
    var v, db := w.db, CasState(w.db, tr.id, tr.state, to, at);
    CasRequests(cfg, w, tr, to, cont, at);
    EdgeFacts(tr.state, to);
    forall t | t in db.receipts ensures ReceiptOk(db, t) {
      ReceiptIsDelivered(v, t);
      ReceiptCarries(v, db, t);
    }
  }

  lemma ReceiptIsDelivered(db: Db, t: TradeId)
    requires t in db.receipts && ReceiptOk(db, t) && LedgerOk(db)
    ensures t in db.trades && Delivered(db.trades[t].state)
  {
    var e := db.ledger[db.receipts[t].seqNo - 1];
    assert Delivered(db.trades[e.trade].state);
  }

  // ---------------------------------------------------------------- ledger and receipts

  /** Appending keeps one linked entry a trade, whichever caller wins the head. */
  lemma AppendKeeps(cfg: Config, w: World, record: TradeRecord, proof: Option<Signature>, prev: Hash)
    requires DbOk(cfg, w.db, w.now, w.landed) && DeliveredRecord(w, record, proof)
    ensures DbOk(cfg, AppendEntry(w.db, cfg.hasher, record, prev), w.now, w.landed)
    ensures Grows(w.db, AppendEntry(w.db, cfg.hasher, record, prev))
  {
    hide TradesOk, AcceptancesOk, RequestsOk, SettlementOk, ChainOk, LedgerOk, ReceiptsOk,
         RequestsGrow, TradesGrow, HasEntry;
    var v, db := w.db, AppendEntry(w.db, cfg.hasher, record, prev);
    if AppendOutcome(v, cfg.hasher, record, prev).Appended? {
      AppendLinks(cfg.hasher, v, record);
      TradesCarry(v, db, w.now);
      AcceptancesCarry(v, db, w.now);
      RequestsCarry(v, db);
      SettlementCarries(cfg, v, db, w.landed);
      ReceiptsCarry(v, db);
      AppendRow(cfg, w, record, proof);
    } else {
      GrowsRefl(v);
    }
  }

  lemma DeliveredIsFinal(db: Db, tr: Trade)
    requires Copy(db, tr) && Delivered(tr.state)
    ensures db.trades[tr.id] == tr
  {
  }

  lemma AppendLinks(h: Hasher, db: Db, record: TradeRecord)
    requires ChainOk(h, db.ledger)
    ensures ChainOk(h, db.ledger + [NextEntry(db, h, record)])
  {
    var longer := db.ledger + [NextEntry(db, h, record)];
    forall i | 0 <= i < |longer| ensures longer[..i] == db.ledger[..i] {
    }
    assert db.ledger[..|db.ledger|] == db.ledger;
  }

  lemma AppendRow(cfg: Config, w: World, record: TradeRecord, proof: Option<Signature>)
    requires LedgerOk(w.db) && DeliveredRecord(w, record, proof) && !HasEntry(w.db, record.trade.id)
    ensures LedgerOk(w.db.(ledger := w.db.ledger + [NextEntry(w.db, cfg.hasher, record)]))
  {
    hide ProofOk;
    var v := w.db;
    DeliveredIsFinal(v, record.trade);
    forall i | 0 <= i < |v.ledger| ensures v.ledger[i].trade != record.trade.id {
      assert v.ledger[i] in v.ledger;
    }
  }

  lemma ReceiptKeeps(cfg: Config, w: World, record: TradeRecord, proof: Option<Signature>, entry: Entry)
    requires DbOk(cfg, w.db, w.now, w.landed) && StampOk(cfg, w, Saving(record, proof, entry))
    ensures DbOk(cfg, InsertReceipt(w.db, ReceiptFor(record, proof, entry, w.cluster)), w.now, w.landed)
    ensures Grows(w.db, InsertReceipt(w.db, ReceiptFor(record, proof, entry, w.cluster)))
  {
    hide TradesOk, AcceptancesOk, RequestsOk, SettlementOk, ChainOk, LedgerOk, ReceiptsOk,
         RequestsGrow, TradesGrow, StampOk;
    var v, db := w.db, InsertReceipt(w.db, ReceiptFor(record, proof, entry, w.cluster));
    TradesCarry(v, db, w.now);
    AcceptancesCarry(v, db, w.now);
    RequestsCarry(v, db);
    LedgerCarry(v, db);
    SettlementCarries(cfg, v, db, w.landed);
    InsertedReceipts(cfg, w, record, proof, entry);
  }

  lemma InsertedReceipts(cfg: Config, w: World, record: TradeRecord, proof: Option<Signature>, entry: Entry)
    requires ReceiptsOk(w.db) && RequestsOk(w.db) && StampOk(cfg, w, Saving(record, proof, entry))
    ensures ReceiptsOk(InsertReceipt(w.db, ReceiptFor(record, proof, entry, w.cluster)))
  {
    hide ReceiptOk, RequestsOk, StampOk;
    var v, r := w.db, ReceiptFor(record, proof, entry, w.cluster);
    var db := InsertReceipt(v, r);
    RequestsCarry(v, db);
    forall t | t in db.receipts ensures ReceiptOk(db, t) {
      if t in v.receipts {
        ReceiptHasTrade(v, t);
        ReceiptCarries(v, db, t);
      } else {
        NewReceipt(cfg, w, record, proof, entry);
      }
    }
  }

  lemma NewReceipt(cfg: Config, w: World, record: TradeRecord, proof: Option<Signature>, entry: Entry)
    requires StampOk(cfg, w, Saving(record, proof, entry)) && record.trade.id !in w.db.receipts
    ensures ReceiptOk(InsertReceipt(w.db, ReceiptFor(record, proof, entry, w.cluster)), record.trade.id)
  {
    var db := InsertReceipt(w.db, ReceiptFor(record, proof, entry, w.cluster));
    DeliveredIsFinal(w.db, record.trade);
    if proof.Some? {
      var r :| ConfirmedBy(w.db, record.trade.id, proof.value, w.cluster, r);
      assert ConfirmedBy(db, record.trade.id, proof.value, w.cluster, r);
    }
  }
}
