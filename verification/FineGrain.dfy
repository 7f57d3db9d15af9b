/** What holds of the marketplace however its calls interleave. */
module FineGrain {
  import opened Options
  import opened Domain
  import opened Tables
  import opened Protocol
  import opened Safety
  import opened Transactions
  import opened Interleaving
  import opened Runs
  import opened EventLog

  ghost predicate Reachable(cfg: Config, s: State)
  {
    exists states, steps :: IsRun(cfg, states, steps) && s == states[|states| - 1]
  }

  lemma ReachableInv(cfg: Config, s: State)
    requires Reachable(cfg, s)
    ensures Inv(cfg, s)
  {
    hide Inv;
    var states, steps :| IsRun(cfg, states, steps) && s == states[|states| - 1];
    Invariant(cfg, states, steps, |states| - 1);
  }

  // ---------------------------------------------------------------- trade states

  /** One step moves a stored trade along one edge of the table or not at all, and a
      trade first appears as proposed. */
  lemma MovesAlongEdges(cfg: Config, s: State, step: Step, t: TradeId)
    requires Reachable(cfg, s) && Enabled(cfg, s, step) && t in Next(cfg, s, step).db.trades
    ensures var row := Next(cfg, s, step).db.trades[t];
            if t in s.db.trades then s.db.trades[t] == row
                                     || (s.db.trades[t].SameTerms(row) && Edge(s.db.trades[t].state, row.state))
            else row.state == Proposed
  {
    ReachableInv(cfg, s);
    if step.Run? {
      assert FrameOk(cfg, WorldOf(s), s.calls[step.c]);
      hide Inv, Reachable, Ready, Advance;
      RowsTouched(cfg, s.db, s.now, s.cluster, s.calls[step.c], step.e);
      TouchedTrade(cfg, WorldOf(s), s.calls[step.c], step.e, t);
    }
  }

  lemma TouchedTrade(cfg: Config, w: World, f: Frame, e: Env, t: TradeId)
    requires FrameOk(cfg, w, f) && Ready(cfg, w.db, w.now, f, e)
    requires var db := Advance(cfg, w.db, w.now, w.cluster, f, e).db;
             t in db.trades && (db.trades == w.db.trades || (f.Open? && f.opening.CreateInsert?) || (f.Move? && f.moving.Applying?))
    ensures var row := Advance(cfg, w.db, w.now, w.cluster, f, e).db.trades[t];
            if t in w.db.trades then w.db.trades[t] == row
                                     || (w.db.trades[t].SameTerms(row) && Edge(w.db.trades[t].state, row.state))
            else row.state == Proposed
  {
    if (f.Open? && f.opening.CreateInsert?) || (f.Move? && f.moving.Applying?) {
      hide ContOk, Copy, HasRequest, Proven, AcceptedBy;
    } else {
      hide Ready, Advance, FrameOk;
    }
  }

  /** Recorded, settled, cancelled and resolved rows never change again. */
  lemma FinalIsForever(cfg: Config, states: seq<State>, steps: seq<Step>, i: nat, j: nat, t: TradeId)
    requires IsRun(cfg, states, steps) && i <= j < |states|
    requires t in states[i].db.trades && Final(states[i].db.trades[t].state)
    ensures t in states[j].db.trades && states[j].db.trades[t] == states[i].db.trades[t]
  {
    hide IsRun;
    TablesGrow(cfg, states, steps, i, j);
    assert RowGrows(states[i].db.trades[t], states[j].db.trades[t]);
  }

  /** No trade is ever final in two ways: in particular none both settles and cancels. */
  lemma OneEnding(cfg: Config, states: seq<State>, steps: seq<Step>, i: nat, j: nat, t: TradeId)
    requires IsRun(cfg, states, steps) && i < |states| && j < |states|
    requires t in states[i].db.trades && Final(states[i].db.trades[t].state)
    requires t in states[j].db.trades && Final(states[j].db.trades[t].state)
    ensures states[i].db.trades[t] == states[j].db.trades[t]
  {
    hide IsRun;
    if i <= j { FinalIsForever(cfg, states, steps, i, j, t); } else { FinalIsForever(cfg, states, steps, j, i, t); }
  }

  /** A trade past negotiation holds the acceptance of each of its two parties. */
  lemma EngagedByBoth(cfg: Config, s: State, t: TradeId)
    requires Reachable(cfg, s) && t in s.db.trades
    requires s.db.trades[t].state in {Accepted, SettlementPending, Recorded, Settled, Disputed, Resolved}
    ensures s.db.trades[t].buyer != s.db.trades[t].seller
    ensures (t, s.db.trades[t].buyer) in s.db.acceptances && (t, s.db.trades[t].seller) in s.db.acceptances
  {
    ReachableInv(cfg, s);
    hide RequestsOk, SettlementOk, ChainOk, LedgerOk, ReceiptsOk, FramesOk;
  }

  /** An idempotency key names at most one trade. */
  lemma KeysAreUnique(cfg: Config, s: State, t: TradeId, u: TradeId)
    requires Reachable(cfg, s) && t in s.db.trades && u in s.db.trades
    requires s.db.trades[t].key.Some? && s.db.trades[t].key == s.db.trades[u].key
    ensures t == u
  {
    ReachableInv(cfg, s);
    hide AcceptancesOk, RequestsOk, SettlementOk, ChainOk, LedgerOk, ReceiptsOk, FramesOk;
  }

  // ---------------------------------------------------------------- receipts and settlement

  /** A saved receipt is for a recorded or settled trade and names the chain entry that
      holds that trade's row; a signed one names a confirmed request of a settled trade. */
  lemma ReceiptsAreBacked(cfg: Config, s: State, t: TradeId)
    requires Reachable(cfg, s) && t in s.db.receipts
    ensures var r := s.db.receipts[t];
            && r.trade == t && t in s.db.trades && s.db.trades[t].state in {Recorded, Settled}
            && r.record.trade == s.db.trades[t]
            && 1 <= r.seqNo <= |s.db.ledger|
            && s.db.ledger[r.seqNo - 1].hash == r.entryHash && s.db.ledger[r.seqNo - 1].record == r.record
            && (r.signature.Some? ==>
                  && s.db.trades[t].state == Settled && r.cluster.Some?
                  && exists q :: q in s.db.requests && s.db.requests[q].trade == t && s.db.requests[q].status == Confirmed
                                 && s.db.requests[q].signature == r.signature
                                 && s.db.requests[q].cluster == r.cluster.value)
  {
    ReachableInv(cfg, s);
    hide TradesOk, AcceptancesOk, RequestsOk, SettlementOk, ChainOk, FramesOk;
    assert ReceiptOk(s.db, t);
    var r := s.db.receipts[t];
    assert s.db.ledger[r.seqNo - 1].trade in s.db.trades;
    if r.signature.Some? {
      var q :| ConfirmedBy(s.db, t, r.signature.value, r.cluster.value, q);
    }
  }

  /** A settled trade is on-chain, and one of its requests was confirmed under a signature
      for which the chain showed a transaction that executed without error and verifies
      against the trade's own terms. */
  lemma SettledIsProven(cfg: Config, s: State, t: TradeId)
    requires Reachable(cfg, s) && t in s.db.trades && s.db.trades[t].state == Settled
    ensures s.db.trades[t].mode == Onchain
    ensures exists q, tx :: q in s.db.requests && s.db.requests[q].trade == t
                            && s.db.requests[q].status == Confirmed && s.db.requests[q].signature.Some?
                            && (s.db.requests[q].signature.value, tx) in s.landed
                            && cfg.verify(TermsOf(s.db.trades[t]), tx)
  {
    hide Inv, Reachable, Evidence, Proven;
    ReachableInv(cfg, s);
    var sig, cluster := SettledUnder(cfg, s, t);
    var q, tx := EvidenceFound(cfg, s.db, s.landed, s.db.trades[t], sig, cluster);
  }

  lemma SettledUnder(cfg: Config, s: State, t: TradeId) returns (sig: Signature, cluster: Cluster)
    requires Inv(cfg, s) && t in s.db.trades && s.db.trades[t].state == Settled
    ensures s.db.trades[t].mode == Onchain && s.db.trades[t].id == t
    ensures Evidence(s.db, t, sig, cluster) && Proven(cfg, s.landed, s.db.trades[t], sig)
  {
    hide AcceptancesOk, RequestsOk, ReceiptsOk, LedgerOk, ChainOk, FramesOk, LockOk, Evidence, Proven;
    sig, cluster :| Evidence(s.db, t, sig, cluster) && Proven(cfg, s.landed, s.db.trades[t], sig);
  }

  lemma EvidenceFound(cfg: Config, db: Db, landed: set<(Signature, Transaction)>, tr: Trade, sig: Signature, cluster: Cluster)
    returns (q: RequestId, tx: Transaction)
    requires Evidence(db, tr.id, sig, cluster) && Proven(cfg, landed, tr, sig)
    ensures ConfirmedBy(db, tr.id, sig, cluster, q) && (sig, tx) in landed && cfg.verify(TermsOf(tr), tx)
  {
    q :| ConfirmedBy(db, tr.id, sig, cluster, q);
    tx :| (sig, tx) in landed && cfg.verify(TermsOf(tr), tx);
  }

  /** Requests: at most one issued a trade, only for on-chain trades that were accepted,
      and a pending trade has one. */
  lemma RequestsAreSingle(cfg: Config, s: State, r: RequestId)
    requires Reachable(cfg, s) && r in s.db.requests
    ensures var t := s.db.requests[r].trade;
            t in s.db.trades && s.db.trades[t].mode == Onchain && s.db.trades[t].state !in {Proposed, Negotiating}
    ensures s.db.requests[r].status == Issued ==>
              forall q :: q in s.db.requests && q != r && s.db.requests[q].trade == s.db.requests[r].trade ==>
                s.db.requests[q].status != Issued
    ensures s.db.requests[r].status == Confirmed ==> s.db.requests[r].signature.Some?
  {
    ReachableInv(cfg, s);
    hide TradesOk, AcceptancesOk, SettlementOk, ReceiptsOk, LedgerOk, ChainOk, FramesOk;
  }

  lemma PendingHasRequest(cfg: Config, s: State, t: TradeId)
    requires Reachable(cfg, s) && t in s.db.trades && s.db.trades[t].state == SettlementPending
    ensures s.db.trades[t].mode == Onchain
    ensures exists r :: r in s.db.requests && s.db.requests[r].trade == t
  {
    ReachableInv(cfg, s);
    hide TradesOk, AcceptancesOk, RequestsOk, ReceiptsOk, LedgerOk, ChainOk, FramesOk;
    assert HasRequest(s.db, t);
  }

  /** A request's life: issued to confirmed or issued to expired, then nothing; once it
      carries a signature it carries that one forever. */
  lemma RequestLife(cfg: Config, states: seq<State>, steps: seq<Step>, i: nat, j: nat, r: RequestId)
    requires IsRun(cfg, states, steps) && i <= j < |states| && r in states[i].db.requests
    ensures r in states[j].db.requests
    ensures var a, b := states[i].db.requests[r], states[j].db.requests[r];
            && a.(status := b.status, signature := b.signature) == b
            && (a.status != Issued ==> a == b)
            && (a.signature.Some? ==> b.signature == a.signature)
  {
    hide IsRun;
    TablesGrow(cfg, states, steps, i, j);
    hide TradesGrow;
    assert RequestGrows(states[i].db.requests[r], states[j].db.requests[r]);
  }

  // ---------------------------------------------------------------- the ledger

  /** Whatever the interleaving of appenders, the chain is numbered from one without gaps,
      linked, recomputable, and has at most one entry a trade, which is a delivered one. */
  lemma ChainIsSound(cfg: Config, s: State, i: nat)
    requires Reachable(cfg, s) && i < |s.db.ledger|
    ensures var e := s.db.ledger[i];
            && e.seqNo == i + 1
            && e.prev == (if i == 0 then cfg.hasher.genesis else s.db.ledger[i - 1].hash)
            && e.hash == cfg.hasher.entry(e.seqNo, e.prev, cfg.hasher.payload(e.record))
            && e.trade in s.db.trades && s.db.trades[e.trade].state in {Recorded, Settled}
            && e.record.trade == s.db.trades[e.trade]
            && forall j :: 0 <= j < |s.db.ledger| && j != i ==> s.db.ledger[j].trade != e.trade
  {
    ReachableInv(cfg, s);
    hide TradesOk, AcceptancesOk, RequestsOk, SettlementOk, ReceiptsOk, FramesOk;
    var prefix := s.db.ledger[..i];
    assert i > 0 ==> prefix[|prefix| - 1] == s.db.ledger[i - 1];
    forall j | 0 <= j < |s.db.ledger| && j != i ensures s.db.ledger[j].trade != s.db.ledger[i].trade {
      if j < i { assert s.db.ledger[j].trade != s.db.ledger[i].trade; }
    }
  }

  /** The chain's length when a call begins to append is the length its frame notes. */
  lemma AppendBeginsAt(cfg: Config, s: State, c: CallId, e: Env)
    requires Reachable(cfg, s) && Enabled(cfg, s, Run(c, e))
    requires s.calls[c].Stamp? && s.calls[c].stamping.ReceiptCheck?
    ensures var f := Next(cfg, s, Run(c, e)).calls[c];
            f == Returned(Refused) || (f.Stamp? && f.stamping.Heading? && f.stamping.attempt == 0
                                       && f.stamping.start == |s.db.ledger|)
  {
    hide Reachable;
  }

  /** Stale is answered at the third attempt and never before, and then at least three
      entries of other calls have landed since the call began. */
  lemma StaleMeansThreeLanded(cfg: Config, s: State, c: CallId, e: Env)
    requires Reachable(cfg, s) && Enabled(cfg, s, Run(c, e))
    requires s.calls[c].Stamp? && s.calls[c].stamping.Appending?
    requires var p := s.calls[c].stamping; AppendOutcome(s.db, cfg.hasher, p.record, p.prev).Stale?
    ensures var p := s.calls[c].stamping;
            |s.db.ledger| >= p.start + p.attempt + 1
            && (Next(cfg, s, Run(c, e)).calls[c].Returned? ==> |s.db.ledger| >= p.start + 3)
    ensures var p := s.calls[c].stamping;
            p.attempt <= 2 && (Next(cfg, s, Run(c, e)).calls[c].Returned? <==> p.attempt == 2)
  {
    hide Inv, Reachable, StampOk, Ready, Next, AdvanceStamp, AppendOutcome;
    ReachableInv(cfg, s);
    StampFacts(cfg, s, c);
    StampRun(cfg, s, c, e);
    StaleStep(cfg, WorldOf(s), s.calls[c].stamping);
  }

  lemma StampFacts(cfg: Config, s: State, c: CallId)
    requires Inv(cfg, s) && c in s.calls && s.calls[c].Stamp?
    ensures StampOk(cfg, WorldOf(s), s.calls[c].stamping)
  {
    hide WorldOk, LockOk, StampOk;
    assert FrameOk(cfg, WorldOf(s), s.calls[c]);
  }

  lemma StampRun(cfg: Config, s: State, c: CallId, e: Env)
    requires Enabled(cfg, s, Run(c, e)) && s.calls[c].Stamp?
    ensures Next(cfg, s, Run(c, e)).calls[c] == AdvanceStamp(cfg, s.db, s.now, s.cluster, s.calls[c].stamping).frame
  {
    hide AdvanceStamp, NextLock;
  }

  lemma StaleStep(cfg: Config, w: World, p: Stamping)
    requires p.Appending? && StampOk(cfg, w, p) && AppendOutcome(w.db, cfg.hasher, p.record, p.prev).Stale?
    ensures |w.db.ledger| >= p.start + p.attempt + 1
    ensures p.attempt <= 2 && (AdvanceStamp(cfg, w.db, w.now, w.cluster, p).frame.Returned? <==> p.attempt == 2)
  {
    hide DeliveredRecord, HasEntry;
    HeadMoved(cfg.hasher, w.db.ledger, p.seen);
  }

  lemma HeadMoved(h: Hasher, ledger: seq<Entry>, seen: nat)
    requires seen <= |ledger| && HeadHash(h, ledger[..seen]) != HeadHash(h, ledger)
    ensures seen < |ledger|
  {
    assert ledger[..|ledger|] == ledger;
  }

  /** What a finished call handed out was, when it was read, what the store held. */
  lemma ResultsAreStored(cfg: Config, s: State, c: CallId)
    requires Reachable(cfg, s) && c in s.calls && s.calls[c].Returned?
    ensures match s.calls[c].out
            case OkTrade(tr) =>
              tr.id in s.db.trades && tr.SameTerms(s.db.trades[tr.id]) && Reaches(tr.state, s.db.trades[tr.id].state)
            case OkRequest(r) =>
              r.id in s.db.requests && s.db.requests[r.id].trade == r.trade
              && (r.signature.Some? ==> r.signature == s.db.requests[r.id].signature)
            case OkRepeat(tr, r) => tr.id in s.db.receipts && s.db.receipts[tr.id] == r
            case OkReceipt(r) => r.trade in s.db.receipts && s.db.receipts[r.trade] == r
            case _ => true
  {
    ReachableInv(cfg, s);
    hide WorldOk, LockOk, Reachable;
    assert FrameOk(cfg, WorldOf(s), s.calls[c]);
  }

  /** With a spending check configured, at most one call is between its check and its
      insert. */
  lemma ReservingIsExclusive(cfg: Config, s: State, c: CallId, d: CallId)
    requires Reachable(cfg, s) && cfg.capped && c in s.calls && d in s.calls
    requires Holds(s.calls[c]) && Holds(s.calls[d])
    ensures c == d
  {
    ReachableInv(cfg, s);
    hide WorldOk, FramesOk, Reachable;
  }
}
