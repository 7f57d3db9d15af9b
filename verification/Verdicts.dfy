/** What building, confirming and reconciling a settlement come to when made alone: which
    request is meant, what the chain says of it, and what that makes of the trade. */
module Verdicts {
  import opened Options
  import opened Domain
  import opened Tables
  import opened Protocol
  import opened Safety
  import opened Transactions
  import opened Interleaving
  import opened Runs
  import opened MethodGrain
  import opened Sequential
  import opened RunningAlone
  import opened Calls
  import opened Outcomes

  // ---------------------------------------------------------------- requests

  predicate Of(db: Db, t: TradeId, r: RequestId) { r in db.requests && db.requests[r].trade == t }

  predicate OpenFor(db: Db, t: TradeId, r: RequestId) { Of(db, t, r) && db.requests[r].status == Issued }

  /** Every issued request of the trade withdrawn, every other row as it was. */
  function Withdrawn(db: Db, t: TradeId): Db
  {
    db.(requests := map r | r in db.requests :: if OpenFor(db, t, r) then db.requests[r].(status := Expired) else db.requests[r])
  }

  /** A new request in place of every issued one. */
  function Issuing(db: Db, r: Request): Db
  {
    var without := Withdrawn(db, r.trade);
    without.(requests := without.requests[r.id := r])
  }

  function Signed(db: Db, r: RequestId, sig: Signature): Db
    requires r in db.requests
  {
    db.(requests := db.requests[r := db.requests[r].(signature := Some(sig))])
  }

  function ConfirmedAs(db: Db, r: RequestId, sig: Signature): Db
    requires r in db.requests
  {
    db.(requests := db.requests[r := db.requests[r].(status := Confirmed, signature := Some(sig))])
  }

  /** No later row: by creation time, then by identifier. */
  predicate After(a: Request, b: Request) { a.createdAt > b.createdAt || (a.createdAt == b.createdAt && a.id > b.id) }

  lemma WithdrawnIsExpired(db: Db, t: TradeId)
    ensures ExpireRequests(db, t) == Withdrawn(db, t)
  {
    assert ExpireRequests(db, t).requests == Withdrawn(db, t).requests;
  }

  lemma NothingToWithdraw(db: Db, t: TradeId)
    requires forall r :: !OpenFor(db, t, r)
    ensures Withdrawn(db, t) == db
  {
    assert Withdrawn(db, t).requests == db.requests;
  }

  lemma IssuingIsCreated(db: Db, r: Request)
    requires r.id !in db.requests
    ensures CreateRequest(db, r) == Issuing(db, r)
  {
    WithdrawnIsExpired(db, r.trade);
  }

  // ---------------------------------------------------------------- build

  /** Only the buyer of an on-chain trade both sides agreed to is given something to sign. */
  predicate Payable(cfg: Config, db: Db, actor: AgentId, t: TradeId, now: Time)
    requires t in db.trades
  {
    var tr := db.trades[t];
    && cfg.settlement && actor == tr.buyer && tr.mode == Onchain
    && tr.state in {Accepted, SettlementPending} && Affordable(cfg, db, t, now)
  }

  /** One fresh request, unsigned, for the running cluster; an accepted trade goes to
      pending with it. */
  ghost predicate Builds(v: World, actor: AgentId, t: TradeId, r: Request, w: World)
    requires t in v.db.trades
  {
    && r.id !in v.db.requests && r == Request(r.id, t, v.cluster, Issued, None, v.now, r.expiresAt)
    && w == v.(db := if v.db.trades[t].state == Accepted
                     then Outcomes.Moved(Issuing(v.db, r), t, SettlementPending, Some(actor), EventSettlementPending, v.now)
                     else Issuing(v.db, r))
  }

  /** A build that may be made, and whose terms can be built, leaves exactly one issued
      request of the trade, the one it hands out; any other changes nothing. */
  lemma BuildDecides(cfg: Config, given: Outside, v: World, actor: AgentId, t: TradeId, w: World, out: Outcome)
    requires Calm(cfg, v) && CalledOn(cfg, Some(given), v, Build(actor, t), w, out)
    ensures if t in v.db.trades && Payable(cfg, v.db, actor, t, v.now) && given.terms
            then out.OkRequest? && Builds(v, actor, t, out.request, w)
            else Unmoved(v, w, out, Refused)
  {
    hide Leads, WorldOk, Fact, Builds;
    StartLeads(cfg, Some(given), v, Build(actor, t), w, out);
    if t in v.db.trades {
      RowFacts(cfg, v, t);
      var tr := v.db.trades[t];
      var f := Begun(cfg, Build(actor, t), tr, v.now);
      if f.Returned? {
        LeadsOut(cfg, Some(given), v, f.out, w, out);
      } else {
        BuildLeads(cfg, given, v, actor, t, w, out);
      }
    }
  }

  lemma BuildLeads(cfg: Config, given: Outside, v: World, actor: AgentId, t: TradeId, w: World, out: Outcome)
    requires t in v.db.trades && v.db.trades[t].id == t && v.db.trades[t].state in {Accepted, SettlementPending}
    requires Leads(cfg, Some(given), v, Leave(Spending(v.db.trades[t], actor, true)), w, out)
    ensures if Affordable(cfg, v.db, t, v.now) && given.terms then out.OkRequest? && Builds(v, actor, t, out.request, w)
            else Unmoved(v, w, out, Refused)
  {
    hide Leads;
    var tr := v.db.trades[t];
    var e := LeadsNext(cfg, Some(given), v, Leave(Spending(tr, actor, true)), w, out);
    var a := AdvanceLeave(cfg, v.db, v.now, v.cluster, Spending(tr, actor, true), e);
    assert v.landed + {} == v.landed;
    if a.frame.Returned? {
      LeadsOut(cfg, Some(given), v, Refused, w, out);
    } else {
      assert a == Effect(v.db, Leave(Building(tr, actor, v.now)));
      InsertLeads(cfg, given, v, actor, t, w, out);
    }
  }

  lemma InsertLeads(cfg: Config, given: Outside, v: World, actor: AgentId, t: TradeId, w: World, out: Outcome)
    requires t in v.db.trades && v.db.trades[t].id == t && v.db.trades[t].state in {Accepted, SettlementPending}
    requires Leads(cfg, Some(given), v, Leave(Building(v.db.trades[t], actor, v.now)), w, out)
    ensures out.OkRequest? && Builds(v, actor, t, out.request, w)
  {
    hide Leads, CreateRequest, Issuing;
    var tr := v.db.trades[t];
    var e := LeadsNext(cfg, Some(given), v, Leave(Building(tr, actor, v.now)), w, out);
    var r := NewRequest(tr, v.cluster, v.now, e);
    IssuingIsCreated(v.db, r);
    IssuingKeeps(v.db, r);
    var u := v.(db := Issuing(v.db, r));
    assert v.landed + {} == v.landed;
    if tr.state == Accepted {
      var m := Applying(tr, Some(actor), SettlementPending, EventSettlementPending, ThenRequest(r), v.now);
      MoveLeads(cfg, Some(given), u, m, w, out);
      LeadsOut(cfg, Some(given), u.(db := Outcomes.Moved(u.db, t, SettlementPending, Some(actor), EventSettlementPending, v.now)), OkRequest(r), w, out);
    } else {
      LeadsOut(cfg, Some(given), u, OkRequest(r), w, out);
    }
  }

  lemma IssuingKeeps(db: Db, r: Request)
    ensures Issuing(db, r).trades == db.trades
  {
  }

  /** What such a build leaves is one issued request of the trade: the one handed out. */
  lemma BuiltIsOnlyIssued(v: World, actor: AgentId, t: TradeId, r: Request, w: World, q: RequestId)
    requires t in v.db.trades && Builds(v, actor, t, r, w)
    ensures OpenFor(w.db, t, q) <==> q == r.id
  {
  }

  // ---------------------------------------------------------------- what the chain says

  function Tries(cfg: Config): nat { if cfg.attempts < 1 then 1 else cfg.attempts }

  /** The first answer that is not "not found", among the attempts from this one to the
      last. */
  function FirstWord(given: Outside, attempt: nat, last: nat): Answer
    decreases last - attempt
  {
    if attempt > last then NotFound
    else if given.answer(attempt) != NotFound then given.answer(attempt)
    else FirstWord(given, attempt + 1, last)
  }

  /** What the chain has shown once it has given this answer. */
  function Witnessed(v: World, sig: Signature, word: Answer): World
  {
    if word.Landed? && !word.failed then v.(landed := v.landed + {(sig, word.tx)}) else v
  }

  /** Polling ends on the first word, or refused when there is none. */
  lemma {:induction false} PollLeads(cfg: Config, given: Outside, v: World, tr: Trade, sig: Signature, list: map<RequestId, Request>,
                                     r: RequestId, attempt: nat, w: World, out: Outcome)
    requires 1 <= attempt <= Tries(cfg)
    requires Leads(cfg, Some(given), v, Settle(Fetching(tr, sig, list, Some(r), attempt)), w, out)
    ensures var word := FirstWord(given, attempt, Tries(cfg));
            if word.Landed? then
              Leads(cfg, Some(given), Witnessed(v, sig, word),
                    Judge(cfg, tr, sig, list, Some(r), v.cluster, word.tx, word.failed, given.terms, v.now), w, out)
            else Unmoved(v, w, out, Refused)
    decreases Tries(cfg) - attempt
  {
    hide Leads, Judge;
    var f := Settle(Fetching(tr, sig, list, Some(r), attempt));
    var e := LeadsNext(cfg, Some(given), v, f, w, out);
    var word := given.answer(attempt);
    var g := AdvanceSettle(cfg, v.db, v.now, v.cluster, f.settling, e).frame;
    assert v.landed + {} == v.landed;
    match word
    case NotFound =>
      if attempt < Tries(cfg) {
        PollLeads(cfg, given, v, tr, sig, list, r, attempt + 1, w, out);
      } else {
        assert FirstWord(given, attempt + 1, Tries(cfg)) == NotFound;
        LeadsOut(cfg, Some(given), v, Refused, w, out);
      }
    case Unreachable => LeadsOut(cfg, Some(given), v, Refused, w, out);
    case Landed(_, _) => assert Interleaving.After(v, Effect(v.db, g), Shown(f, e)) == Witnessed(v, sig, word);
  }

  // ---------------------------------------------------------------- the verdict

  /** What a transaction found under a request's signature makes of a pending trade: a
      failed one withdraws every request and leaves the trade to be paid again; one that
      cannot be checked changes nothing; one that does not pay what was agreed disputes the
      trade; one that does confirms the request, settles the trade and issues the receipt. */
  ghost predicate Verdict(cfg: Config, v: World, t: TradeId, r: RequestId, sig: Signature, word: Answer, terms: bool, w: World, out: Outcome)
    requires t in v.db.trades && r in v.db.requests && word.Landed?
  {
    var tr := v.db.trades[t];
    if word.failed then w == v.(db := Withdrawn(v.db, t)) && out == Refused
    else if !terms then Unmoved(v, w, out, Refused)
    else if !cfg.verify(Terms(tr.buyer, tr.seller, tr.amount, tr.mint), word.tx) then
      w == v.(db := Outcomes.Moved(v.db, t, Disputed, Some(tr.buyer), EventDisputed, v.now)) && out == Refused
    else if v.db.requests[r].status != Issued then Unmoved(v, w, out, Refused)
    else
      && w == v.(db := Receipted(cfg.hasher,
                                 Outcomes.Moved(ConfirmedAs(v.db, r, sig), t, Settled, Some(tr.buyer), EventSettled, v.now),
                                 t, Some(sig), v.cluster, v.now))
      && out == OkReceipt(w.db.receipts[t])
  }

  /** The tables one confirmation or reconcile is judged on. */
  ghost predicate Judged(cfg: Config, v: World, t: TradeId, r: RequestId, sig: Signature, list: map<RequestId, Request>)
  {
    && t in v.db.trades && v.db.trades[t].id == t && v.db.trades[t].state == SettlementPending
    && Of(v.db, t, r) && v.db.requests[r].signature == Some(sig) && v.db.requests[r].cluster == v.cluster
    && OneIssued(v.db.requests) && ClusterOk(list, r, v.cluster)
    && t !in v.db.receipts && forall i :: 0 <= i < |v.db.ledger| ==> v.db.ledger[i].trade != t
  }

  lemma JudgeLeads(cfg: Config, given: Option<Outside>, v: World, t: TradeId, r: RequestId, sig: Signature, list: map<RequestId, Request>,
                   word: Answer, terms: bool, w: World, out: Outcome)
    requires Judged(cfg, v, t, r, sig, list) && word.Landed?
    requires Leads(cfg, given, v, Judge(cfg, v.db.trades[t], sig, list, Some(r), v.cluster, word.tx, word.failed, terms, v.now), w, out)
    ensures Verdict(cfg, v, t, r, sig, word, terms, w, out)
  {
    hide Leads, ClusterOk;
    var tr := v.db.trades[t];
    if word.failed {
      WithdrawLeads(cfg, given, v, t, w, out);
    } else if !terms {
      LeadsOut(cfg, given, v, Refused, w, out);
    } else if !cfg.verify(TermsOf(tr), word.tx) {
      MoveLeads(cfg, given, v, Applying(tr, Some(tr.buyer), Disputed, EventDisputed, Refuse, v.now), w, out);
      LeadsOut(cfg, given, v.(db := Outcomes.Moved(v.db, t, Disputed, Some(tr.buyer), EventDisputed, v.now)), Refused, w, out);
    } else {
      ConfirmLeads(cfg, given, v, t, r, sig, list, w, out);
    }
  }

  /** A step of a settlement that takes nothing from outside. */
  lemma SettleLeadsOn(cfg: Config, given: Option<Outside>, v: World, s: Settling, r: Effect, w: World, out: Outcome)
    requires Leads(cfg, given, v, Settle(s), w, out) && !s.Fetching? && !s.Refetching?
    requires forall e :: SettleReady(v.db, s, e) ==> AdvanceSettle(cfg, v.db, v.now, v.cluster, s, e) == r
    ensures Leads(cfg, given, v.(db := r.db), r.frame, w, out)
  {
    hide SettleReady, AdvanceSettle, Leads;
    var e := LeadsNext(cfg, given, v, Settle(s), w, out);
    assert v.landed + {} == v.landed;
  }

  lemma WithdrawLeads(cfg: Config, given: Option<Outside>, v: World, t: TradeId, w: World, out: Outcome)
    requires t in v.db.trades && v.db.trades[t].id == t
    requires Leads(cfg, given, v, Settle(Withdrawing(v.db.trades[t])), w, out)
    ensures w == v.(db := Withdrawn(v.db, t)) && out == Refused
  {
    hide Leads;
    WithdrawnIsExpired(v.db, t);
    SettleLeadsOn(cfg, given, v, Withdrawing(v.db.trades[t]), Effect(Withdrawn(v.db, t), Returned(Refused)), w, out);
    LeadsOut(cfg, given, v.(db := Withdrawn(v.db, t)), Refused, w, out);
  }

  lemma ConfirmLeads(cfg: Config, given: Option<Outside>, v: World, t: TradeId, r: RequestId, sig: Signature, list: map<RequestId, Request>,
                     w: World, out: Outcome)
    requires Judged(cfg, v, t, r, sig, list)
    requires Leads(cfg, given, v, Settle(Confirming(v.db.trades[t], sig, list, r)), w, out)
    ensures if v.db.requests[r].status != Issued then Unmoved(v, w, out, Refused)
            else
              && w == v.(db := Receipted(cfg.hasher,
                                         Outcomes.Moved(ConfirmedAs(v.db, r, sig), t, Settled, Some(v.db.trades[t].buyer), EventSettled, v.now),
                                         t, Some(sig), v.cluster, v.now))
              && out == OkReceipt(w.db.receipts[t])
  {
    hide Leads, ClusterOk;
    var tr := v.db.trades[t];
    var s := Confirming(tr, sig, list, r);
    var a := AdvanceSettle(cfg, v.db, v.now, v.cluster, s, NOTHING);
    SettleLeadsOn(cfg, given, v, s, a, w, out);
    if v.db.requests[r].status != Issued {
      LeadsOut(cfg, given, v, Refused, w, out);
    } else {
      var u := v.(db := ConfirmedAs(v.db, r, sig));
      assert a.db == u.db;
      NoneLeft(v.db, t, r, sig);
      SettledLeads(cfg, given, u, t, sig, a.frame, w, out);
    }
  }

  lemma NoneLeft(db: Db, t: TradeId, r: RequestId, sig: Signature)
    requires OpenFor(db, t, r) && OneIssued(db.requests)
    ensures forall q :: !OpenFor(ConfirmedAs(db, r, sig), t, q)
  {
  }

  /** Superseding withdraws nothing when nothing else was issued. */
  lemma SettledLeads(cfg: Config, given: Option<Outside>, u: World, t: TradeId, sig: Signature, f: Frame, w: World, out: Outcome)
    requires t in u.db.trades && u.db.trades[t].id == t && u.db.trades[t].state == SettlementPending
    requires t !in u.db.receipts && forall i :: 0 <= i < |u.db.ledger| ==> u.db.ledger[i].trade != t
    requires forall q :: !OpenFor(u.db, t, q)
    requires var tr := u.db.trades[t];
             f == Settle(Superseding(tr, sig)) || f == Apply(tr, Some(tr.buyer), Settled, None, ThenLedger(Some(sig)), u.now)
    requires Leads(cfg, given, u, f, w, out)
    ensures w == u.(db := Receipted(cfg.hasher, Outcomes.Moved(u.db, t, Settled, Some(u.db.trades[t].buyer), EventSettled, u.now),
                                    t, Some(sig), u.cluster, u.now))
    ensures out == OkReceipt(w.db.receipts[t])
  {
    hide Leads, Receipted;
    var tr := u.db.trades[t];
    var m := Applying(tr, Some(tr.buyer), Settled, EventSettled, ThenLedger(Some(sig)), u.now);
    if f.Settle? {
      WithdrawnIsExpired(u.db, t);
      NothingToWithdraw(u.db, t);
      SettleLeadsOn(cfg, given, u, f.settling, Effect(u.db, Move(m)), w, out);
    }
    MoveLeads(cfg, given, u, m, w, out);
    var db := Outcomes.Moved(u.db, t, Settled, Some(tr.buyer), EventSettled, u.now);
    StampLeads(cfg, given, u.(db := db), t, Some(sig), w, out);
  }

  // ---------------------------------------------------------------- confirm

  /** The request a payment is taken to be for: the issued one, or else the newest. */
  ghost predicate Currently(db: Db, t: TradeId, r: RequestId)
  {
    && Of(db, t, r)
    && forall q :: Of(db, t, q) && q != r ==>
         db.requests[q].status != Issued
         && (db.requests[r].status != Issued ==> After(db.requests[r], db.requests[q]))
  }

  lemma RequestFacts(cfg: Config, w: World, t: TradeId)
    requires WorldOk(cfg, w) && t in w.db.trades
    ensures OneIssued(w.db.requests) && forall r :: r in w.db.requests ==> w.db.requests[r].id == r
    ensures w.db.trades[t].state == SettlementPending ==> HasRequest(w.db, t)
  {
    hide TradesOk, AcceptancesOk, ChainOk, LedgerOk, ReceiptsOk, HasRequest, Evidence, Proven;
  }

  lemma CurrentIs(db: Db, t: TradeId, r: RequestId)
    requires OneIssued(db.requests) && (forall q :: q in db.requests ==> db.requests[q].id == q) && IsCurrent(RequestsOf(db, t), r)
    ensures Currently(db, t, r)
  {
    forall q | Of(db, t, q) && q != r
      ensures db.requests[q].status != Issued && (db.requests[r].status != Issued ==> After(db.requests[r], db.requests[q]))
    {
      assert q in RequestsOf(db, t);
    }
  }

  /** What confirming does to a pending trade with its request in hand. */
  ghost predicate Confirms(cfg: Config, given: Outside, v: World, t: TradeId, r: RequestId, sig: Signature, w: World, out: Outcome)
    requires t in v.db.trades && r in v.db.requests
  {
    var q, word := v.db.requests[r], FirstWord(given, 1, Tries(cfg));
    if q.cluster != v.cluster || q.status != Issued || (q.signature.Some? && q.signature != Some(sig)) then Unmoved(v, w, out, Refused)
    else
      var u := v.(db := Signed(v.db, r, sig));
      if word.Landed? then Verdict(cfg, Witnessed(u, sig, word), t, r, sig, word, given.terms, w, out)
      else Unmoved(u, w, out, Refused)
  }

  /** A party confirms an on-chain trade. One delivered already answers with its receipt. A
      pending one is judged on the first word the chain has about this signature, once that
      is recorded on its issued request; a chain that has none leaves the signature there. */
  lemma ConfirmDecides(cfg: Config, given: Outside, v: World, actor: AgentId, t: TradeId, sig: Signature, w: World, out: Outcome)
    returns (r: RequestId)
    requires Calm(cfg, v) && CalledOn(cfg, Some(given), v, Confirm(actor, t, sig), w, out)
    ensures if t !in v.db.trades || !IsParty(v.db.trades[t], actor) || !cfg.settlement || v.db.trades[t].mode != Onchain then
              Unmoved(v, w, out, Refused)
            else match v.db.trades[t].state
                 case SettlementPending => Currently(v.db, t, r) && Confirms(cfg, given, v, t, r, sig, w, out)
                 case Settled => Unmoved(v, w, out, if t in v.db.receipts then OkRepeat(v.db.trades[t], v.db.receipts[t]) else Refused)
                 case Recorded => Unmoved(v, w, out, if t in v.db.receipts then OkRepeat(v.db.trades[t], v.db.receipts[t]) else Refused)
                 case _ => Unmoved(v, w, out, Refused)
  {
    hide Leads, WorldOk, Fact, Confirms, Currently;
    StartLeads(cfg, Some(given), v, Confirm(actor, t, sig), w, out);
    r := 0;
    if t in v.db.trades {
      RowFacts(cfg, v, t);
      var tr := v.db.trades[t];
      var f := Begun(cfg, Confirm(actor, t, sig), tr, v.now);
      if f.Returned? {
        LeadsOut(cfg, Some(given), v, f.out, w, out);
      } else if f.Open? {
        RepeatLeads(cfg, Some(given), v, t, w, out);
      } else {
        r := ListLeads(cfg, given, v, t, sig, w, out);
      }
    }
  }

  lemma ListLeads(cfg: Config, given: Outside, v: World, t: TradeId, sig: Signature, w: World, out: Outcome) returns (r: RequestId)
    requires WorldOk(cfg, v) && t in v.db.trades && v.db.trades[t].id == t && v.db.trades[t].state == SettlementPending
    requires Leads(cfg, Some(given), v, Settle(ConfirmList(v.db.trades[t], sig)), w, out)
    ensures Currently(v.db, t, r) && Confirms(cfg, given, v, t, r, sig, w, out)
  {
    hide Leads, WorldOk, Confirms, Currently, IsCurrent, ClusterOk;
    var tr, list := v.db.trades[t], RequestsOf(v.db, t);
    RequestFacts(cfg, v, t);
    HasRequestIsListed(v.db, t);
    SettleLeadsOn(cfg, Some(given), v, ConfirmList(tr, sig), Effect(v.db, Settle(ConfirmCurrent(tr, sig, list))), w, out);
    var e := LeadsNext(cfg, Some(given), v, Settle(ConfirmCurrent(tr, sig, list)), w, out);
    assert v.landed + {} == v.landed;
    r := e.pick;
    CurrentIs(v.db, t, r);
    CurrentIsOf(v.db, t, r);
    PickedLeads(cfg, given, v, t, sig, list, r, w, out);
  }

  lemma CurrentIsOf(db: Db, t: TradeId, r: RequestId)
    requires Currently(db, t, r)
    ensures Of(db, t, r)
  {
  }

  lemma PickedLeads(cfg: Config, given: Outside, v: World, t: TradeId, sig: Signature, list: map<RequestId, Request>, r: RequestId, w: World, out: Outcome)
    requires WorldOk(cfg, v) && t in v.db.trades && v.db.trades[t].id == t && v.db.trades[t].state == SettlementPending
    requires Of(v.db, t, r) && list == RequestsOf(v.db, t)
    requires var tr := v.db.trades[t];
             Leads(cfg, Some(given), v, if !ClusterOk(list, r, v.cluster) then Returned(Refused) else Settle(Signing(tr, sig, list, r)), w, out)
    ensures Confirms(cfg, given, v, t, r, sig, w, out)
  {
    hide Leads, WorldOk, FirstWord, Verdict;
    var tr := v.db.trades[t];
    assert r in list && list[r] == v.db.requests[r];
    if list[r].cluster != v.cluster {
      LeadsOut(cfg, Some(given), v, Refused, w, out);
    } else {
      var a := AdvanceSettle(cfg, v.db, v.now, v.cluster, Signing(tr, sig, list, r), NOTHING);
      SettleLeadsOn(cfg, Some(given), v, Signing(tr, sig, list, r), a, w, out);
      if !CanSign(v.db, r, sig) {
        LeadsOut(cfg, Some(given), v, Refused, w, out);
      } else {
        SignedLeads(cfg, given, v, t, sig, list, r, w, out);
      }
    }
  }

  lemma SignedLeads(cfg: Config, given: Outside, v: World, t: TradeId, sig: Signature, list: map<RequestId, Request>, r: RequestId, w: World, out: Outcome)
    requires WorldOk(cfg, v) && t in v.db.trades && v.db.trades[t].id == t && v.db.trades[t].state == SettlementPending
    requires OpenFor(v.db, t, r) && v.db.requests[r].cluster == v.cluster && list == RequestsOf(v.db, t)
    requires Leads(cfg, Some(given), v.(db := Signed(v.db, r, sig)), Settle(Fetching(v.db.trades[t], sig, list, Some(r), 1)), w, out)
    ensures var u, word := v.(db := Signed(v.db, r, sig)), FirstWord(given, 1, Tries(cfg));
            if word.Landed? then Verdict(cfg, Witnessed(u, sig, word), t, r, sig, word, given.terms, w, out)
            else Unmoved(u, w, out, Refused)
  {
    hide Leads, WorldOk, FirstWord, Verdict, Judge;
    var u, word := v.(db := Signed(v.db, r, sig)), FirstWord(given, 1, Tries(cfg));
    PollLeads(cfg, given, u, v.db.trades[t], sig, list, r, 1, w, out);
    if word.Landed? {
      RequestFacts(cfg, v, t);
      Unstamped(cfg, v, t);
      SignedOnce(v.db, r, sig);
      JudgeLeads(cfg, Some(given), Witnessed(u, sig, word), t, r, sig, list, word, given.terms, w, out);
    }
  }

  lemma SignedOnce(db: Db, r: RequestId, sig: Signature)
    requires OneIssued(db.requests) && r in db.requests
    ensures OneIssued(Signed(db, r, sig).requests)
  {
  }

  // ---------------------------------------------------------------- reconcile

  predicate Carries(db: Db, t: TradeId, r: RequestId) { Of(db, t, r) && db.requests[r].signature.Some? }

  /** The request the reconciler polls: the newest that carries a signature, or with none the
      newest there is. */
  ghost predicate Polled(db: Db, t: TradeId, r: RequestId)
  {
    && Of(db, t, r)
    && ((exists q :: Carries(db, t, q)) ==> Carries(db, t, r))
    && forall q :: Of(db, t, q) && q != r && (Carries(db, t, r) ==> Carries(db, t, q)) ==> After(db.requests[r], db.requests[q])
  }

  predicate LapsedRequest(q: Request, now: Time) { q.status == Issued && q.expiresAt <= now }

  /** The blockhash ran out: withdrawn and cancelled, in nobody's name. */
  ghost predicate Expires(v: World, t: TradeId, w: World, out: Outcome)
    requires t in v.db.trades
  {
    && w == v.(db := Outcomes.Moved(Withdrawn(v.db, t), t, Cancelled, None, EventExpired, v.now))
    && out == OkTrade(w.db.trades[t])
  }

  /** What a pass makes of a pending trade with its request in hand. */
  ghost predicate Reconciles(cfg: Config, given: Outside, v: World, t: TradeId, r: RequestId, w: World, out: Outcome)
    requires t in v.db.trades && r in v.db.requests
  {
    var q, word := v.db.requests[r], given.answer(1);
    if q.signature.None? then (if LapsedRequest(q, v.now) then Expires(v, t, w, out) else Unmoved(v, w, out, Refused))
    else if q.cluster != v.cluster then w == v.(db := Withdrawn(v.db, t)) && out == Refused
    else match word
         case Landed(_, _) => Verdict(cfg, Witnessed(v, q.signature.value, word), t, r, q.signature.value, word, given.terms, w, out)
         case Unreachable => Unmoved(v, w, out, Refused)
         case NotFound => if LapsedRequest(q, v.now) then Expires(v, t, w, out) else Unmoved(v, w, out, Refused)
  }

  /** A pass over one pending on-chain trade: nothing unless its request has lapsed unpaid,
      was issued for another cluster, or its payment has landed. */
  lemma ReconcileDecides(cfg: Config, given: Outside, v: World, t: TradeId, w: World, out: Outcome) returns (r: RequestId)
    requires Calm(cfg, v) && CalledOn(cfg, Some(given), v, Reconcile(t), w, out)
    ensures if t !in v.db.trades || !cfg.settlement || v.db.trades[t].mode != Onchain || v.db.trades[t].state != SettlementPending then
              Unmoved(v, w, out, Refused)
            else Polled(v.db, t, r) && Reconciles(cfg, given, v, t, r, w, out)
  {
    hide Leads, WorldOk, Fact, Reconciles, Polled;
    StartLeads(cfg, Some(given), v, Reconcile(t), w, out);
    r := 0;
    if t in v.db.trades {
      RowFacts(cfg, v, t);
      var f := Begun(cfg, Reconcile(t), v.db.trades[t], v.now);
      if f.Returned? {
        LeadsOut(cfg, Some(given), v, f.out, w, out);
      } else {
        r := PassLeads(cfg, given, v, t, w, out);
      }
    }
  }

  lemma PolledIs(db: Db, t: TradeId, r: RequestId)
    requires (forall q :: q in db.requests ==> db.requests[q].id == q) && HasRequest(db, t)
    requires var list := RequestsOf(db, t);
             if AnySigned(list) then IsLatestSigned(list, r) else list != map[] ==> IsLatest(list, r)
    ensures Polled(db, t, r) && r in RequestsOf(db, t)
    ensures AnySigned(RequestsOf(db, t)) <==> Carries(db, t, r)
  {
    var list := RequestsOf(db, t);
    HasRequestIsListed(db, t);
    assert forall q :: Of(db, t, q) <==> q in list;
    if AnySigned(list) {
      assert list[r].signature.Some?;
    } else {
      assert forall q :: q in list ==> list[q].signature.None?;
    }
  }

  lemma PassLeads(cfg: Config, given: Outside, v: World, t: TradeId, w: World, out: Outcome) returns (r: RequestId)
    requires WorldOk(cfg, v) && t in v.db.trades && v.db.trades[t].id == t && v.db.trades[t].state == SettlementPending
    requires Leads(cfg, Some(given), v, Settle(ReconcileList(v.db.trades[t])), w, out)
    ensures Polled(v.db, t, r) && Reconciles(cfg, given, v, t, r, w, out)
  {
    hide Leads, WorldOk, Polled, Reconciles, AnySigned, IsLatest, IsLatestSigned;
    var tr, list := v.db.trades[t], RequestsOf(v.db, t);
    RequestFacts(cfg, v, t);
    var e := LeadsNext(cfg, Some(given), v, Settle(ReconcileList(tr)), w, out);
    assert v.landed + {} == v.landed;
    r := e.pick;
    PolledIs(v.db, t, r);
    PolledLeads(cfg, given, v, t, e, w, out);
  }

  lemma PolledLeads(cfg: Config, given: Outside, v: World, t: TradeId, e: Env, w: World, out: Outcome)
    requires WorldOk(cfg, v) && t in v.db.trades && v.db.trades[t].id == t && v.db.trades[t].state == SettlementPending
    requires SettleReady(v.db, ReconcileList(v.db.trades[t]), e) && Of(v.db, t, e.pick)
    requires AnySigned(RequestsOf(v.db, t)) <==> Carries(v.db, t, e.pick)
    requires Leads(cfg, Some(given), v, AdvanceSettle(cfg, v.db, v.now, v.cluster, ReconcileList(v.db.trades[t]), e).frame, w, out)
    ensures Reconciles(cfg, given, v, t, e.pick, w, out)
  {
    hide Leads, WorldOk, AnySigned, Verdict, SettleReady, Expires;
    var tr, list, r := v.db.trades[t], RequestsOf(v.db, t), e.pick;
    var q := v.db.requests[r];
    assert r in list && list[r] == q;
    if q.signature.None? {
      if LapsedRequest(q, v.now) { LapseLeads(cfg, Some(given), v, t, w, out); } else { LeadsOut(cfg, Some(given), v, Refused, w, out); }
    } else if q.cluster != v.cluster {
      WithdrawLeads(cfg, Some(given), v, t, w, out);
    } else {
      RefetchLeads(cfg, given, v, t, list, r, w, out);
    }
  }

  lemma LapseLeads(cfg: Config, given: Option<Outside>, v: World, t: TradeId, w: World, out: Outcome)
    requires t in v.db.trades && v.db.trades[t].id == t && v.db.trades[t].state == SettlementPending
    requires Leads(cfg, given, v, Settle(Lapsing(v.db.trades[t])), w, out)
    ensures Expires(v, t, w, out)
  {
    hide Leads;
    WithdrawnIsExpired(v.db, t);
    var u := v.(db := Withdrawn(v.db, t));
    var m := Applying(v.db.trades[t], None, Cancelled, EventExpired, Return, v.now);
    SettleLeadsOn(cfg, given, v, Lapsing(v.db.trades[t]), Effect(u.db, Move(m)), w, out);
    PlainMove(cfg, given, u, t, None, Cancelled, EventExpired, w, out);
  }

  lemma RefetchLeads(cfg: Config, given: Outside, v: World, t: TradeId, list: map<RequestId, Request>, r: RequestId, w: World, out: Outcome)
    requires WorldOk(cfg, v) && t in v.db.trades && v.db.trades[t].id == t && v.db.trades[t].state == SettlementPending
    requires Carries(v.db, t, r) && v.db.requests[r].cluster == v.cluster && list == RequestsOf(v.db, t)
    requires Leads(cfg, Some(given), v, Settle(Refetching(v.db.trades[t], list[r].signature.value, list, r, v.now)), w, out)
    ensures var q, word := v.db.requests[r], given.answer(1);
            match word
            case Landed(_, _) => Verdict(cfg, Witnessed(v, q.signature.value, word), t, r, q.signature.value, word, given.terms, w, out)
            case Unreachable => Unmoved(v, w, out, Refused)
            case NotFound => if LapsedRequest(q, v.now) then Expires(v, t, w, out) else Unmoved(v, w, out, Refused)
  {
    hide Leads, WorldOk, Verdict, Judge, Expires;
    var q, sig, word := v.db.requests[r], list[r].signature.value, given.answer(1);
    var f := Settle(Refetching(v.db.trades[t], sig, list, r, v.now));
    var e := LeadsNext(cfg, Some(given), v, f, w, out);
    assert v.landed + {} == v.landed;
    match word
    case Unreachable => LeadsOut(cfg, Some(given), v, Refused, w, out);
    case NotFound =>
      if LapsedRequest(q, v.now) { LapseLeads(cfg, Some(given), v, t, w, out); } else { LeadsOut(cfg, Some(given), v, Refused, w, out); }
    case Landed(_, _) =>
      RequestFacts(cfg, v, t);
      Unstamped(cfg, v, t);
      var g := AdvanceSettle(cfg, v.db, v.now, v.cluster, f.settling, e).frame;
      assert Interleaving.After(v, Effect(v.db, g), Shown(f, e)) == Witnessed(v, sig, word);
      JudgeLeads(cfg, Some(given), Witnessed(v, sig, word), t, r, sig, list, word, given.terms, w, out);
  }

  // ---------------------------------------------------------------- in plain words

  /** A trade paid as agreed: settled, its request confirmed under the signature, nothing
      left to sign, and a receipt that carries the signature handed out. */
  ghost predicate Paid(w: World, t: TradeId, r: RequestId, sig: Signature, out: Outcome)
  {
    && t in w.db.trades && w.db.trades[t].state == Settled
    && Of(w.db, t, r) && w.db.requests[r].status == Confirmed && w.db.requests[r].signature == Some(sig)
    && (forall q :: !OpenFor(w.db, t, q))
    && t in w.db.receipts && w.db.receipts[t].signature == Some(sig) && out == OkReceipt(w.db.receipts[t])
  }

  /** A trade paid, but not what was agreed: disputed, and no receipt. */
  ghost predicate Mispaid(v: World, w: World, t: TradeId, out: Outcome)
  {
    t in w.db.trades && w.db.trades[t].state == Disputed && w.db.receipts == v.db.receipts && out == Refused
  }

  /** A payment that failed on chain: still pending, with nothing left to sign. */
  ghost predicate Unpaid(v: World, w: World, t: TradeId, out: Outcome)
  {
    && t in w.db.trades && w.db.trades[t].state == SettlementPending && (forall q :: !OpenFor(w.db, t, q))
    && w.db.receipts == v.db.receipts && out == Refused
  }

  lemma VerdictMeans(cfg: Config, v: World, t: TradeId, r: RequestId, sig: Signature, word: Answer, terms: bool, w: World, out: Outcome)
    requires t in v.db.trades && v.db.trades[t].state == SettlementPending && OpenFor(v.db, t, r) && OneIssued(v.db.requests)
    requires word.Landed? && Verdict(cfg, v, t, r, sig, word, terms, w, out)
    ensures var tr := v.db.trades[t];
            if word.failed then Unpaid(v, w, t, out)
            else if !terms then w == v
            else if cfg.verify(Terms(tr.buyer, tr.seller, tr.amount, tr.mint), word.tx) then Paid(w, t, r, sig, out)
            else Mispaid(v, w, t, out)
  {
    NoneLeft(v.db, t, r, sig);
  }

  /** A confirmation whose signature the chain has seen decides the trade. */
  lemma ConfirmedPaymentDecides(cfg: Config, given: Outside, v: World, actor: AgentId, t: TradeId, r: RequestId, sig: Signature, w: World, out: Outcome)
    requires Calm(cfg, v) && CalledOn(cfg, Some(given), v, Confirm(actor, t, sig), w, out) && cfg.settlement
    requires t in v.db.trades && IsParty(v.db.trades[t], actor) && v.db.trades[t].mode == Onchain
    requires v.db.trades[t].state == SettlementPending && OpenFor(v.db, t, r) && v.db.requests[r].cluster == v.cluster
    requires v.db.requests[r].signature in {None, Some(sig)} && FirstWord(given, 1, Tries(cfg)).Landed? && given.terms
    ensures var tr, word := v.db.trades[t], FirstWord(given, 1, Tries(cfg));
            if word.failed then Unpaid(v, w, t, out)
            else if cfg.verify(Terms(tr.buyer, tr.seller, tr.amount, tr.mint), word.tx) then Paid(w, t, r, sig, out)
            else Mispaid(v, w, t, out)
  {
    hide CalledOn, WorldOk, Fact, FirstWord, Verdict;
    var q := ConfirmDecides(cfg, given, v, actor, t, sig, w, out);
    assert q == r;
    RequestFacts(cfg, v, t);
    SignedOnce(v.db, r, sig);
    var word := FirstWord(given, 1, Tries(cfg));
    var u := v.(db := Signed(v.db, r, sig));
    VerdictMeans(cfg, Witnessed(u, sig, word), t, r, sig, word, given.terms, w, out);
  }

  /** So does a pass over a trade whose signed request the chain has seen paid. */
  lemma ReconciledPaymentDecides(cfg: Config, given: Outside, v: World, t: TradeId, r: RequestId, w: World, out: Outcome)
    requires Calm(cfg, v) && CalledOn(cfg, Some(given), v, Reconcile(t), w, out) && cfg.settlement
    requires t in v.db.trades && v.db.trades[t].mode == Onchain && v.db.trades[t].state == SettlementPending
    requires OpenFor(v.db, t, r) && Polled(v.db, t, r) && Carries(v.db, t, r) && v.db.requests[r].cluster == v.cluster
    requires given.answer(1).Landed? && given.terms
    ensures var tr, word := v.db.trades[t], given.answer(1);
            if word.failed then Unpaid(v, w, t, out)
            else if cfg.verify(Terms(tr.buyer, tr.seller, tr.amount, tr.mint), word.tx) then
              Paid(w, t, r, v.db.requests[r].signature.value, out)
            else Mispaid(v, w, t, out)
  {
    hide CalledOn, WorldOk, Fact, Verdict, Polled;
    var q := ReconcileDecides(cfg, given, v, t, w, out);
    PolledIsOne(v.db, t, q, r);
    RequestFacts(cfg, v, t);
    var word, sig := given.answer(1), v.db.requests[r].signature.value;
    VerdictMeans(cfg, Witnessed(v, sig, word), t, r, sig, word, given.terms, w, out);
  }

  lemma PolledIsOne(db: Db, t: TradeId, q: RequestId, r: RequestId)
    requires Polled(db, t, q) && Polled(db, t, r)
    ensures q == r
  {
  }
}
