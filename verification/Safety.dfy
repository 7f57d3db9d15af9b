/** What every interleaving of the fine-grain protocol keeps. Each frame carries an
    assertion about the tables that no other call's step can break; a step takes an
    assertion and the table invariants to the next frame's assertion and the table
    invariants again. */
module Safety {
  import opened Options
  import opened Domain
  import opened Tables
  import opened Protocol

  // ---------------------------------------------------------------- how tables grow

  /** A row keeps its terms, moves only along reachable states, and is untouched while
      its state is. */
  ghost predicate RowGrows(a: Trade, b: Trade)
  {
    a.SameTerms(b) && Reaches(a.state, b.state) && (a.state == b.state ==> a == b)
  }

  /** Issued requests may be signed once, then confirmed or expired; other rows are fixed. */
  ghost predicate RequestGrows(a: Request, b: Request)
  {
    && a.(status := b.status, signature := b.signature) == b
    && (a.status != Issued ==> a == b)
    && (a.signature.Some? ==> a.signature == b.signature)
  }

  ghost predicate TradesGrow(a: map<TradeId, Trade>, b: map<TradeId, Trade>)
  {
    forall t :: t in a ==> t in b && RowGrows(a[t], b[t])
  }

  ghost predicate RequestsGrow(a: map<RequestId, Request>, b: map<RequestId, Request>)
  {
    forall r :: r in a ==> r in b && RequestGrows(a[r], b[r])
  }

  ghost predicate Grows(a: Db, b: Db)
  {
    && TradesGrow(a.trades, b.trades)
    && (forall k :: k in a.acceptances ==> k in b.acceptances && a.acceptances[k] == b.acceptances[k])
    && RequestsGrow(a.requests, b.requests)
    && a.events <= b.events
    && a.ledger <= b.ledger
    && (forall t :: t in a.receipts ==> t in b.receipts && a.receipts[t] == b.receipts[t])
  }

  // ---------------------------------------------------------------- table invariants

  predicate Delivered(s: TradeState) { s == Recorded || s == Settled }

  /** States only an accepted trade can be in or have come from. */
  predicate Engaged(s: TradeState) { s !in {Proposed, Negotiating, Cancelled} }

  ghost predicate BothAccepted(db: Db, tr: Trade)
  {
    (tr.id, tr.buyer) in db.acceptances && (tr.id, tr.seller) in db.acceptances
  }

  ghost predicate AcceptedBy(db: Db, tr: Trade, at: Time)
  {
    && BothAccepted(db, tr)
    && db.acceptances[(tr.id, tr.buyer)] <= at && db.acceptances[(tr.id, tr.seller)] <= at
  }

  ghost predicate HasRequest(db: Db, id: TradeId) { exists r :: r in db.requests && db.requests[r].trade == id }

  /** A request of the trade was confirmed by this signature. */
  ghost predicate ConfirmedBy(db: Db, id: TradeId, sig: Signature, cluster: Cluster, r: RequestId)
  {
    && r in db.requests && db.requests[r].trade == id && db.requests[r].status == Confirmed
    && db.requests[r].signature == Some(sig) && db.requests[r].cluster == cluster
  }

  ghost predicate Evidence(db: Db, id: TradeId, sig: Signature, cluster: Cluster)
  {
    exists r :: ConfirmedBy(db, id, sig, cluster, r)
  }

  /** Asked for this signature, the chain showed a transaction that executed without
      error and verifies against the trade's own terms. */
  ghost predicate Proven(cfg: Config, landed: set<(Signature, Transaction)>, tr: Trade, sig: Signature)
  {
    exists tx :: (sig, tx) in landed && cfg.verify(TermsOf(tr), tx)
  }

  ghost predicate TradesOk(db: Db, now: Time)
  {
    && (forall t :: t in db.trades ==>
          db.trades[t].id == t && db.trades[t].buyer != db.trades[t].seller && db.trades[t].updatedAt <= now)
    && (forall t, u ::
          t in db.trades && u in db.trades && db.trades[t].key.Some? && db.trades[t].key == db.trades[u].key ==> t == u)
  }

  ghost predicate AcceptancesOk(db: Db, now: Time)
  {
    && (forall k :: k in db.acceptances ==>
          k.0 in db.trades && db.trades[k.0].Party(k.1) && db.acceptances[k] <= now)
    && (forall t :: t in db.trades && Engaged(db.trades[t].state) ==> BothAccepted(db, db.trades[t]))
    && (forall t :: t in db.trades && db.trades[t].state == Accepted ==>
          AcceptedBy(db, db.trades[t], db.trades[t].updatedAt))
  }

  ghost predicate RequestRowsOk(db: Db)
  {
    forall r :: r in db.requests ==>
      && db.requests[r].id == r
      && db.requests[r].trade in db.trades && db.trades[db.requests[r].trade].mode == Onchain
      && Reaches(Accepted, db.trades[db.requests[r].trade].state)
      && (db.requests[r].status == Confirmed ==> db.requests[r].signature.Some?)
  }

  /** A trade has at most one issued request. */
  ghost predicate OneIssued(rs: map<RequestId, Request>)
  {
    forall r, q :: r in rs && q in rs && rs[r].status == Issued && rs[q].status == Issued ==>
      rs[r].trade == rs[q].trade ==> r == q
  }

  ghost predicate RequestsOk(db: Db) { RequestRowsOk(db) && OneIssued(db.requests) }

  ghost predicate SettlementOk(cfg: Config, db: Db, landed: set<(Signature, Transaction)>)
  {
    && (forall t :: t in db.trades && db.trades[t].state == SettlementPending ==>
          db.trades[t].mode == Onchain && HasRequest(db, t))
    && (forall t :: t in db.trades && db.trades[t].state == Settled ==>
          && db.trades[t].mode == Onchain
          && exists sig, cluster :: Evidence(db, t, sig, cluster) && Proven(cfg, landed, db.trades[t], sig))
  }

  /** Consecutive numbers, each entry linked to and recomputable from its predecessor. */
  ghost predicate ChainOk(h: Hasher, ledger: seq<Entry>)
  {
    forall i :: 0 <= i < |ledger| ==>
      && ledger[i].seqNo == i + 1
      && ledger[i].prev == HeadHash(h, ledger[..i])
      && ledger[i].payloadHash == h.payload(ledger[i].record)
      && ledger[i].hash == h.entry(ledger[i].seqNo, ledger[i].prev, ledger[i].payloadHash)
  }

  /** One entry a trade, holding the row the trade was delivered with. */
  ghost predicate LedgerOk(db: Db)
  {
    && (forall i :: 0 <= i < |db.ledger| ==>
          && db.ledger[i].trade in db.trades
          && Delivered(db.trades[db.ledger[i].trade].state)
          && db.ledger[i].record.trade == db.trades[db.ledger[i].trade])
    && (forall i, j :: 0 <= i < j < |db.ledger| ==> db.ledger[i].trade != db.ledger[j].trade)
  }

  ghost predicate NamesEntry(db: Db, r: Receipt)
  {
    && 1 <= r.seqNo <= |db.ledger|
    && db.ledger[r.seqNo - 1].hash == r.entryHash
    && db.ledger[r.seqNo - 1].trade == r.trade
    && db.ledger[r.seqNo - 1].record == r.record
  }

  ghost predicate ReceiptOk(db: Db, t: TradeId)
    requires t in db.receipts
  {
    var r := db.receipts[t];
    && r.trade == t && t in db.trades
    && NamesEntry(db, r)
    && (r.signature.Some? <==> r.cluster.Some?)
    && (r.signature.Some? ==>
          db.trades[t].state == Settled && Evidence(db, t, r.signature.value, r.cluster.value))
  }

  ghost predicate ReceiptsOk(db: Db) { forall t :: t in db.receipts ==> ReceiptOk(db, t) }

  ghost predicate DbOk(cfg: Config, db: Db, now: Time, landed: set<(Signature, Transaction)>)
  {
    && TradesOk(db, now)
    && AcceptancesOk(db, now)
    && RequestsOk(db)
    && SettlementOk(cfg, db, landed)
    && ChainOk(cfg.hasher, db.ledger)
    && LedgerOk(db)
    && ReceiptsOk(db)
  }

  // ---------------------------------------------------------------- frame assertions

  /** The tables, the clock and the process a frame's assertion speaks of. */
  datatype World = World(db: Db, now: Time, cluster: Cluster, landed: set<(Signature, Transaction)>)

  /** A possibly stale copy of a stored row. */
  ghost predicate Copy(db: Db, tr: Trade) { tr.id in db.trades && RowGrows(tr, db.trades[tr.id]) }

  ghost predicate Copies(db: Db, trs: seq<Trade>) { forall i :: 0 <= i < |trs| ==> Copy(db, trs[i]) }

  /** A possibly stale list of a trade's requests; rows it misses were issued since, by
      this process and so for its own cluster. */
  ghost predicate List(w: World, id: TradeId, list: map<RequestId, Request>)
  {
    && (forall r :: r in list ==> list[r].trade == id && r in w.db.requests && RequestGrows(list[r], w.db.requests[r]))
    && (forall r :: r in w.db.requests && w.db.requests[r].trade == id && r !in list ==>
          w.db.requests[r].cluster == w.cluster)
  }

  /** The request a settlement attempt is being made under. */
  ghost predicate Current(w: World, id: TradeId, cur: RequestId)
  {
    cur in w.db.requests && w.db.requests[cur].trade == id
  }

  ghost predicate Carries(w: World, id: TradeId, cur: RequestId, sig: Signature)
  {
    Current(w, id, cur) && w.db.requests[cur].signature == Some(sig)
  }

  ghost predicate Pending(w: World, tr: Trade)
  {
    Copy(w.db, tr) && tr.state == SettlementPending && tr.mode == Onchain && HasRequest(w.db, tr.id)
  }

  ghost predicate ProofOk(w: World, id: TradeId, proof: Option<Signature>)
  {
    proof.Some? ==> Evidence(w.db, id, proof.value, w.cluster) && id in w.db.trades
                    && Reaches(SettlementPending, w.db.trades[id].state)
  }

  /** What a call hands out is, or once was, what the tables say. */
  ghost predicate ResultOk(w: World, out: Outcome)
  {
    match out
    case OkTrade(tr) => Copy(w.db, tr)
    case OkRequest(r) => r.id in w.db.requests && RequestGrows(r, w.db.requests[r.id])
    case OkReceipt(r) => r.trade in w.db.receipts && w.db.receipts[r.trade] == r
    case OkRepeat(tr, r) => Copy(w.db, tr) && tr.id in w.db.receipts && w.db.receipts[tr.id] == r
    case _ => true
  }

  ghost predicate ContOk(w: World, id: TradeId, cont: Cont)
  {
    && (cont.ThenLedger? ==> ProofOk(w, id, cont.sig))
    && (cont.ThenRequest? ==> ResultOk(w, OkRequest(cont.request)))
    && (cont.ThenSweep? ==> Copies(w.db, cont.rest))
  }

  ghost predicate ApplyOk(cfg: Config, w: World, tr: Trade, to: TradeState, cont: Cont, at: Time)
  {
    && Copy(w.db, tr) && Edge(tr.state, to) && at <= w.now && ContOk(w, tr.id, cont)
    && (to == Accepted ==> AcceptedBy(w.db, tr, at))
    && (to == SettlementPending ==> tr.mode == Onchain && HasRequest(w.db, tr.id))
    && (to == Settled ==> tr.mode == Onchain && cont.ThenLedger? && cont.sig.Some?
                          && Proven(cfg, w.landed, tr, cont.sig.value))
    && (cont.ThenLedger? && cont.sig.None? ==> to == Recorded)
  }

  ghost predicate DeliveredRecord(w: World, record: TradeRecord, proof: Option<Signature>)
  {
    && Copy(w.db, record.trade) && Delivered(record.trade.state)
    && ProofOk(w, record.trade.id, proof)
  }

  ghost predicate OpenOk(w: World, o: Opening)
  {
    match o
    case Start(_) => true
    case CreateLock(tr, _) => DraftOk(tr)
    case CreateCheck(tr, _) => DraftOk(tr)
    case CreateInsert(tr, _) => DraftOk(tr) && tr.updatedAt <= w.now
    case CreateLog(tr, _, _) => Copy(w.db, tr)
    case Repeating(tr) => Copy(w.db, tr)
  }

  ghost predicate AgreeOk(w: World, a: Agreeing)
  {
    match a
    case AcceptInsert(tr, actor, at) => Copy(w.db, tr) && tr.Party(actor) && at <= w.now
    case AcceptReturn(id) => id in w.db.trades
    case AcceptRow(id, _) => id in w.db.trades
    case AcceptCount(row, _) => Copy(w.db, row)
  }

  ghost predicate LeaveOk(w: World, l: Leaving)
  {
    match l
    case CancelLive(tr, _) => Copy(w.db, tr)
    case CancelDeadline(tr, _) => Copy(w.db, tr)
    case Spending(tr, _, build) => Copy(w.db, tr) && (build ==> Buildable(tr))
    case Building(tr, _, _) => Copy(w.db, tr) && Buildable(tr)
  }

  ghost predicate SettleOk(cfg: Config, w: World, s: Settling)
  {
    && Pending(w, s.tr)
    && match s
       case ConfirmList(_, _) => true
       case ConfirmCurrent(tr, _, list) => List(w, tr.id, list)
       case Signing(tr, _, list, cur) => List(w, tr.id, list) && Current(w, tr.id, cur) && ClusterOk(list, cur, w.cluster)
       case Fetching(tr, sig, list, found, _) =>
         List(w, tr.id, list) && found.Some? && Carries(w, tr.id, found.value, sig)
       case ReconcileList(_) => true
       case Refetching(tr, sig, list, cur, _) => List(w, tr.id, list) && Carries(w, tr.id, cur, sig)
       case Lapsing(_) => true
       case Withdrawing(_) => true
       case Confirming(tr, sig, list, cur) =>
         && List(w, tr.id, list) && Carries(w, tr.id, cur, sig)
         && ClusterOk(list, cur, w.cluster) && Proven(cfg, w.landed, tr, sig)
       case Superseding(tr, sig) => Evidence(w.db, tr.id, sig, w.cluster) && Proven(cfg, w.landed, tr, sig)
  }

  ghost predicate SweepOk(w: World, s: Sweeping)
  {
    match s
    case Loading(_, loaded, _) => Copies(w.db, loaded)
    case Expiring(rest, _) => Copies(w.db, rest)
  }

  ghost predicate MoveOk(cfg: Config, w: World, m: Moving)
  {
    match m
    case Applying(tr, _, to, _, cont, at) => ApplyOk(cfg, w, tr, to, cont, at)
    case Logging(tr, _, _, _, cont, _) => tr.id in w.db.trades && ContOk(w, tr.id, cont)
    case Rereading(id, cont) => id in w.db.trades && ContOk(w, id, cont)
  }

  /** The chain has grown by one entry for every attempt that found it stale. */
  ghost predicate StampOk(cfg: Config, w: World, p: Stamping)
  {
    match p
    case ReceiptCheck(tr, proof) => Copy(w.db, tr) && ProofOk(w, tr.id, proof)
    case Heading(record, proof, attempt, start) =>
      DeliveredRecord(w, record, proof) && attempt < APPEND_ATTEMPTS && start + attempt <= |w.db.ledger|
    case Appending(record, proof, prev, attempt, start, seen) =>
      && DeliveredRecord(w, record, proof) && attempt < APPEND_ATTEMPTS
      && start + attempt <= seen <= |w.db.ledger| && prev == HeadHash(cfg.hasher, w.db.ledger[..seen])
    case Saving(record, proof, entry) =>
      && DeliveredRecord(w, record, proof)
      && 1 <= entry.seqNo <= |w.db.ledger| && w.db.ledger[entry.seqNo - 1] == entry
      && entry.trade == record.trade.id && entry.record == record
  }

  ghost predicate FrameOk(cfg: Config, w: World, f: Frame)
  {
    match f
    case Open(o) => OpenOk(w, o)
    case Agree(a) => AgreeOk(w, a)
    case Leave(l) => LeaveOk(w, l)
    case Settle(s) => SettleOk(cfg, w, s)
    case Sweep(s) => SweepOk(w, s)
    case Move(m) => MoveOk(cfg, w, m)
    case Stamp(p) => StampOk(cfg, w, p)
    case Returned(out) => ResultOk(w, out)
  }

  predicate DraftOk(tr: Trade) { tr.state == Proposed && tr.buyer != tr.seller }

  predicate Buildable(tr: Trade) { tr.mode == Onchain && (tr.state == Accepted || tr.state == SettlementPending) }

  // ---------------------------------------------------------------- assertions are stable

  /** A later world of the same process: tables grew, the clock did not go back, and
      new requests are for the running cluster. */
  ghost predicate Later(v: World, w: World)
  {
    && Grows(v.db, w.db) && v.now <= w.now && v.cluster == w.cluster && v.landed <= w.landed
    && (forall r :: r in w.db.requests && r !in v.db.requests ==> w.db.requests[r].cluster == w.cluster)
  }

  lemma CopyStable(v: Db, w: Db, tr: Trade)
    requires TradesGrow(v.trades, w.trades) && Copy(v, tr)
    ensures Copy(w, tr)
  {
    ReachesTransitive(tr.state, v.trades[tr.id].state, w.trades[tr.id].state);
    ReachesIsPaths(v.trades[tr.id].state, tr.state);
  }

  lemma CopiesStable(v: Db, w: Db, trs: seq<Trade>)
    requires TradesGrow(v.trades, w.trades) && Copies(v, trs)
    ensures Copies(w, trs)
  {
    forall i | 0 <= i < |trs| ensures Copy(w, trs[i]) {
      CopyStable(v, w, trs[i]);
    }
  }

  lemma EvidenceStable(v: Db, w: Db, id: TradeId, sig: Signature, cluster: Cluster)
    requires RequestsGrow(v.requests, w.requests) && Evidence(v, id, sig, cluster)
    ensures Evidence(w, id, sig, cluster)
  {
    var r :| ConfirmedBy(v, id, sig, cluster, r);
    assert ConfirmedBy(w, id, sig, cluster, r);
  }

  lemma HasRequestStable(v: Db, w: Db, id: TradeId)
    requires RequestsGrow(v.requests, w.requests) && HasRequest(v, id)
    ensures HasRequest(w, id)
  {
    var r :| r in v.requests && v.requests[r].trade == id;
    assert r in w.requests && w.requests[r].trade == id;
  }

  lemma ProvenStable(cfg: Config, a: set<(Signature, Transaction)>, b: set<(Signature, Transaction)>, tr: Trade, sig: Signature)
    requires a <= b && Proven(cfg, a, tr, sig)
    ensures Proven(cfg, b, tr, sig)
  {
    var tx :| (sig, tx) in a && cfg.verify(TermsOf(tr), tx);
    assert (sig, tx) in b;
  }

  lemma ListStable(v: World, w: World, id: TradeId, list: map<RequestId, Request>)
    requires Later(v, w) && List(v, id, list)
    ensures List(w, id, list)
  {
    forall r | r in w.db.requests && w.db.requests[r].trade == id && r !in list
      ensures w.db.requests[r].cluster == w.cluster
    {
      if r in v.db.requests {
        assert RequestGrows(v.db.requests[r], w.db.requests[r]);
      }
    }
  }

  lemma PendingStable(v: World, w: World, tr: Trade)
    requires Later(v, w) && Pending(v, tr)
    ensures Pending(w, tr)
  {
    CopyStable(v.db, w.db, tr);
    HasRequestStable(v.db, w.db, tr.id);
  }

  lemma ProofStable(v: World, w: World, id: TradeId, proof: Option<Signature>)
    requires Later(v, w) && ProofOk(v, id, proof)
    ensures ProofOk(w, id, proof)
  {
    if proof.Some? {
      EvidenceStable(v.db, w.db, id, proof.value, v.cluster);
      ReachesTransitive(SettlementPending, v.db.trades[id].state, w.db.trades[id].state);
    }
  }

  lemma ResultStable(v: World, w: World, out: Outcome)
    requires Later(v, w) && ResultOk(v, out)
    ensures ResultOk(w, out)
  {
    if out.OkTrade? || out.OkRepeat? { CopyStable(v.db, w.db, out.tr); }
  }

  lemma ContStable(v: World, w: World, id: TradeId, cont: Cont)
    requires Later(v, w) && ContOk(v, id, cont)
    ensures ContOk(w, id, cont)
  {
    if cont.ThenLedger? { ProofStable(v, w, id, cont.sig); }
    if cont.ThenSweep? { CopiesStable(v.db, w.db, cont.rest); }
    if cont.ThenRequest? { ResultStable(v, w, OkRequest(cont.request)); }
  }

  lemma ApplyStable(cfg: Config, v: World, w: World, tr: Trade, to: TradeState, cont: Cont, at: Time)
    requires Later(v, w) && ApplyOk(cfg, v, tr, to, cont, at)
    ensures ApplyOk(cfg, w, tr, to, cont, at)
  {
    CopyStable(v.db, w.db, tr);
    ContStable(v, w, tr.id, cont);
    if to == SettlementPending { HasRequestStable(v.db, w.db, tr.id); }
    if to == Settled { ProvenStable(cfg, v.landed, w.landed, tr, cont.sig.value); }
  }

  lemma PrefixTake(a: seq<Entry>, b: seq<Entry>, n: nat)
    requires a <= b && n <= |a|
    ensures a[..n] == b[..n]
  {
  }

  lemma SettleStable(cfg: Config, v: World, w: World, s: Settling)
    requires Later(v, w) && SettleOk(cfg, v, s)
    ensures SettleOk(cfg, w, s)
  {
    PendingStable(v, w, s.tr);
    hide Pending, Proven, Evidence;
    match s
    case ConfirmCurrent(tr, _, list) => ListStable(v, w, tr.id, list);
    case Signing(tr, _, list, _) => ListStable(v, w, tr.id, list);
    case Fetching(tr, _, list, _, _) => ListStable(v, w, tr.id, list);
    case Refetching(tr, _, list, _, _) => ListStable(v, w, tr.id, list);
    case Confirming(tr, sig, list, _) =>
      ListStable(v, w, tr.id, list);
      ProvenStable(cfg, v.landed, w.landed, tr, sig);
    case Superseding(tr, sig) =>
      EvidenceStable(v.db, w.db, tr.id, sig, v.cluster);
      ProvenStable(cfg, v.landed, w.landed, tr, sig);
    case _ =>
  }

  lemma StampStable(cfg: Config, v: World, w: World, p: Stamping)
    requires Later(v, w) && StampOk(cfg, v, p)
    ensures StampOk(cfg, w, p)
  {
    var tr := if p.ReceiptCheck? then p.tr else p.record.trade;
    CopyStable(v.db, w.db, tr);
    ProofStable(v, w, tr.id, p.proof);
    hide Copy, ProofOk;
    if p.Appending? { PrefixTake(v.db.ledger, w.db.ledger, p.seen); }
  }

  /** No later world of the process can break a frame's assertion. */
  lemma FrameStable(cfg: Config, v: World, w: World, f: Frame)
    requires Later(v, w) && FrameOk(cfg, v, f)
    ensures FrameOk(cfg, w, f)
  {
    hide SettleOk, StampOk, ApplyOk, ContOk, Copy, Copies, ResultOk;
    match f
    case Open(o) => if o.CreateLog? || o.Repeating? { CopyStable(v.db, w.db, o.tr); }
    case Agree(AcceptInsert(tr, _, _)) => CopyStable(v.db, w.db, tr);
    case Agree(AcceptCount(row, _)) => CopyStable(v.db, w.db, row);
    case Agree(_) =>
    case Leave(l) => CopyStable(v.db, w.db, l.tr);
    case Settle(s) => SettleStable(cfg, v, w, s);
    case Sweep(Loading(_, loaded, _)) => CopiesStable(v.db, w.db, loaded);
    case Sweep(Expiring(rest, _)) => CopiesStable(v.db, w.db, rest);
    case Move(Applying(tr, _, to, _, cont, at)) => ApplyStable(cfg, v, w, tr, to, cont, at);
    case Move(Logging(tr, _, _, _, cont, _)) => ContStable(v, w, tr.id, cont);
    case Move(Rereading(id, cont)) => ContStable(v, w, id, cont);
    case Stamp(p) => StampStable(cfg, v, w, p);
    case Returned(out) => ResultStable(v, w, out);
  }
}
