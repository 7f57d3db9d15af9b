/** Every call made alone ends, whatever the chain answers; and a payment can go all the way. */
module Completion {
  import opened Options
  import opened Domain
  import opened Tables
  import opened Protocol
  import opened Safety
  import opened Interleaving
  import opened Runs
  import opened Sequential
  import opened RunningAlone
  import opened Calls
  import opened Outcomes
  import opened Verdicts

  // ---------------------------------------------------------------- how far a call has to go

  function MoveRank(m: Moving): nat
  {
    match m
    case Applying(_, _, _, _, _, _) => 13
    case Logging(_, _, _, _, _, _) => 12
    case Rereading(_, _) => 11
  }

  function StampRank(p: Stamping): nat
  {
    match p
    case ReceiptCheck(_, _) => 10
    case Heading(_, _, attempt, _) => if attempt < 3 then 9 - 2 * attempt else 3
    case Appending(_, _, _, attempt, _, _) => if attempt < 3 then 8 - 2 * attempt else 2
    case Saving(_, _, _) => 1
  }

  function SettleRank(cfg: Config, s: Settling): nat
  {
    match s
    case ConfirmList(_, _) => 23 + Tries(cfg)
    case ConfirmCurrent(_, _, _) => 22 + Tries(cfg)
    case Signing(_, _, _, _) => 21 + Tries(cfg)
    case Fetching(_, _, _, _, attempt) => 20 + if attempt < Tries(cfg) then Tries(cfg) - attempt else 0
    case ReconcileList(_) => 21
    case Refetching(_, _, _, _, _) => 20
    case Lapsing(_) => 15
    case Withdrawing(_) => 1
    case Confirming(_, _, _, _) => 15
    case Superseding(_, _) => 14
  }

  function OpenRank(o: Opening): nat
  {
    match o
    case Start(_) => 0
    case CreateLock(_, _) => 5
    case CreateCheck(_, _) => 4
    case CreateInsert(_, _) => 3
    case CreateLog(_, _, _) => 2
    case Repeating(_) => 1
  }

  function Rank(cfg: Config, f: Frame): nat
  {
    match f
    case Open(o) => OpenRank(o)
    case Agree(a) => (match a
                      case AcceptInsert(_, _, _) => 20
                      case AcceptReturn(_) => 1
                      case AcceptRow(_, _) => 19
                      case AcceptCount(_, _) => 18)
    case Leave(l) => (match l
                      case CancelLive(_, _) => 20
                      case CancelDeadline(_, _) => 19
                      case Spending(_, _, _) => 24
                      case Building(_, _, _) => 23)
    case Settle(s) => SettleRank(cfg, s)
    case Sweep(_) => 0
    case Move(m) => MoveRank(m)
    case Stamp(p) => StampRank(p)
    case Returned(_) => 0
  }

  /** Past its first read, and no sweep. */
  predicate Going(f: Frame)
  {
    match f
    case Open(o) => !o.Start?
    case Sweep(_) => false
    case Move(m) => !m.cont.ThenSweep?
    case _ => true
  }

  lemma ApplyRank(cfg: Config, tr: Trade, agent: Actor, to: TradeState, override: Option<EventType>, cont: Cont, now: Time)
    requires !cont.ThenSweep?
    ensures var f := Apply(tr, agent, to, override, cont, now); Going(f) && Rank(cfg, f) <= 13
  {
  }

  lemma BegunGoes(cfg: Config, cmd: Command, tr: Trade, now: Time)
    requires !cmd.Create? && !cmd.SweepAccepted? && !cmd.SweepOpen?
    ensures Going(Begun(cfg, cmd, tr, now))
  {
  }

  lemma JudgeRank(cfg: Config, tr: Trade, sig: Signature, list: map<RequestId, Request>, found: Option<RequestId>,
                  cluster: Cluster, tx: Transaction, failed: bool, termsOk: bool, now: Time)
    ensures var f := Judge(cfg, tr, sig, list, found, cluster, tx, failed, termsOk, now); Going(f) && Rank(cfg, f) <= 15
  {
    ApplyRank(cfg, tr, Some(tr.buyer), Disputed, None, Refuse, now);
    ApplyRank(cfg, tr, Some(tr.buyer), Settled, None, ThenLedger(Some(sig)), now);
    hide Apply, ClusterOk;
  }

  lemma SettleSinks(cfg: Config, v: World, s: Settling, e: Env)
    requires SettleReady(v.db, s, e)
    ensures var g := AdvanceSettle(cfg, v.db, v.now, v.cluster, s, e).frame; Going(g) && Rank(cfg, g) < SettleRank(cfg, s)
  {
    hide Apply, Judge, SettleReady, ClusterOk, AnySigned;
    ApplyRank(cfg, s.tr, None, Cancelled, Some(EventExpired), Return, v.now);
    if s.Confirming? || s.Superseding? { ApplyRank(cfg, s.tr, Some(s.tr.buyer), Settled, None, ThenLedger(Some(s.sig)), v.now); }
    if (s.Fetching? || s.Refetching?) && e.answer.Landed? {
      var found := if s.Fetching? then s.found else Some(s.cur);
      JudgeRank(cfg, s.tr, s.sig, s.list, found, v.cluster, e.answer.tx, e.answer.failed, e.ok, v.now);
    }
  }

  lemma LeaveSinks(cfg: Config, v: World, l: Leaving, e: Env)
    requires LeaveReady(v.db, l, e)
    ensures var g := AdvanceLeave(cfg, v.db, v.now, v.cluster, l, e).frame; Going(g) && Rank(cfg, g) < Rank(cfg, Frame.Leave(l))
  {
    hide Apply, PastDeadline, HasLiveRequest;
    ApplyRank(cfg, l.tr, Some(l.actor), Cancelled, None, Return, v.now);
    ApplyRank(cfg, l.tr, Some(l.actor), Recorded, None, ThenLedger(None), v.now);
    if l.Building? { ApplyRank(cfg, l.tr, Some(l.actor), SettlementPending, None, ThenRequest(NewRequest(l.tr, v.cluster, l.at, e)), v.now); }
  }

  /** Every step takes the call nearer its end. */
  lemma StepSinks(cfg: Config, v: World, f: Frame, e: Env)
    requires Going(f) && !f.Returned? && Ready(cfg, v.db, v.now, f, e)
    ensures var g := Advance(cfg, v.db, v.now, v.cluster, f, e).frame; Going(g) && Rank(cfg, g) < Rank(cfg, f)
  {
    hide AppendOutcome, Acceptors, IsBatch, LeaveReady, SettleReady, AdvanceLeave, AdvanceSettle, Apply, Begun;
    match f
    case Open(o) =>
    case Agree(a) => if a.AcceptCount? { ApplyRank(cfg, a.row, Some(a.actor), Accepted, None, Return, v.now); }
    case Leave(l) => LeaveSinks(cfg, v, l, e);
    case Settle(s) => SettleSinks(cfg, v, s, e);
    case Move(m) =>
    case Stamp(p) =>
  }

  // ---------------------------------------------------------------- the environment can always answer

  lemma {:induction false} NewestExists(rs: map<RequestId, Request>, ids: set<RequestId>) returns (r: RequestId)
    requires ids != {} && ids <= rs.Keys && forall q :: q in rs ==> rs[q].id == q
    ensures r in ids && forall q :: q in ids ==> Newer(rs[r], rs[q])
  {
    var x :| x in ids;
    if ids == {x} {
      r := x;
    } else {
      var y := NewestExists(rs, ids - {x});
      r := if Newer(rs[x], rs[y]) then x else y;
      assert forall q :: q in ids ==> q == x || q in ids - {x};
    }
  }

  lemma CurrentExists(rs: map<RequestId, Request>) returns (r: RequestId)
    requires rs != map[] && forall q :: q in rs ==> rs[q].id == q
    ensures IsCurrent(rs, r)
  {
    var issued := set q | q in rs && rs[q].status == Issued;
    assert rs.Keys != {} by { var q :| q in rs; }
    r := NewestExists(rs, if issued != {} then issued else rs.Keys);
    if issued == {} { assert forall q :: q in rs ==> q !in issued; }
  }

  lemma LatestExists(rs: map<RequestId, Request>) returns (r: RequestId)
    requires rs != map[] && forall q :: q in rs ==> rs[q].id == q
    ensures if AnySigned(rs) then IsLatestSigned(rs, r) else IsLatest(rs, r)
  {
    var signed := set q | q in rs && rs[q].signature.Some?;
    assert rs.Keys != {} by { var q :| q in rs; }
    assert AnySigned(rs) <==> signed != {} by {
      if AnySigned(rs) { var q :| q in rs && rs[q].signature.Some?; assert q in signed; }
      if signed != {} { var q :| q in signed; }
    }
    r := NewestExists(rs, if signed != {} then signed else rs.Keys);
  }

  /** A step of the call is open to it, with the outside saying just this. */
  lemma StepReady(cfg: Config, given: Outside, v: World, f: Frame) returns (e: Env)
    requires WorldOk(cfg, v) && Going(f) && !f.Returned?
    ensures Ready(cfg, v.db, v.now, f, e) && Heard(Some(given), f, e)
  {
    hide TradesOk, AcceptancesOk, SettlementOk, ChainOk, LedgerOk, ReceiptsOk, OneIssued, IsCurrent, IsLatest, IsLatestSigned, AnySigned;
    var attempt := if f.Settle? && f.settling.Fetching? then f.settling.attempt else 1;
    e := Env(None, given.terms, 0, 0, 0, given.answer(attempt), []);
    match f
    case Leave(Building(_, _, _)) =>
      var id := FreshId(v.db.requests.Keys);
      e := e.(freshId := id);
    case Settle(ConfirmCurrent(tr, _, _)) =>
      if RequestsOf(v.db, tr.id) != map[] {
        var r := CurrentExists(RequestsOf(v.db, tr.id));
        e := e.(pick := r);
      }
    case Settle(ReconcileList(tr)) =>
      if RequestsOf(v.db, tr.id) != map[] {
        var r := LatestExists(RequestsOf(v.db, tr.id));
        e := e.(pick := r);
      } else {
        NoneSigned(RequestsOf(v.db, tr.id));
      }
    case _ =>
  }

  lemma NoneSigned(rs: map<RequestId, Request>)
    requires rs == map[]
    ensures !AnySigned(rs)
  {
  }

  lemma {:induction false} GoingEnds(cfg: Config, given: Outside, v: World, f: Frame) returns (w: World, out: Outcome)
    requires WorldOk(cfg, v) && FrameOk(cfg, v, f) && Going(f)
    ensures Leads(cfg, Some(given), v, f, w, out)
    decreases Rank(cfg, f)
  {
    hide WorldOk, FrameOk, Ready, Heard, Advance, Shown, Leads, Going, Rank;
    if f.Returned? {
      w, out := v, f.out;
      LeadsEnd(cfg, Some(given), v, f, w, out);
    } else {
      var e := StepReady(cfg, given, v, f);
      FrameStep(cfg, v, f, e);
      StepSinks(cfg, v, f, e);
      var r := Advance(cfg, v.db, v.now, v.cluster, f, e);
      StepFacts(cfg, v, r, Shown(f, e));
      w, out := GoingEnds(cfg, given, Interleaving.After(v, r, Shown(f, e)), r.frame);
      LeadsBack(cfg, Some(given), v, f, e, w, out);
    }
  }

  lemma StepFacts(cfg: Config, v: World, r: Effect, shown: set<(Signature, Transaction)>)
    requires StepOk(cfg, v, r, shown)
    ensures WorldOk(cfg, Interleaving.After(v, r, shown)) && FrameOk(cfg, Interleaving.After(v, r, shown), r.frame)
  {
    hide WorldOk, FrameOk, Later;
  }

  /** A call on one trade, made alone, ends, whatever it is told from outside. */
  lemma EveryCallEnds(cfg: Config, given: Outside, v: World, cmd: Command) returns (w: World, out: Outcome)
    requires Calm(cfg, v) && !cmd.Create? && !cmd.SweepAccepted? && !cmd.SweepOpen?
    ensures CalledOn(cfg, Some(given), v, cmd, w, out)
  {
    hide DbOk, Fact, FrameOk, Leads, Begun, Later, Going;
    var f, e := Open(Start(cmd)), NOTHING;
    StartOk(cfg, v, cmd);
    assert Ready(cfg, v.db, v.now, f, e) && Heard(Some(given), f, e);
    FrameStep(cfg, v, f, e);
    var r := Advance(cfg, v.db, v.now, v.cluster, f, e);
    StepFacts(cfg, v, r, {});
    if cmd.id in v.db.trades { BegunGoes(cfg, cmd, v.db.trades[cmd.id], v.now); } else { RefusedGoes(); }
    assert v.landed + {} == v.landed;
    w, out := GoingEnds(cfg, given, Interleaving.After(v, r, {}), r.frame);
    LeadsBack(cfg, Some(given), v, f, e, w, out);
  }

  lemma RefusedGoes()
    ensures Going(Returned(Refused))
  {
  }

  lemma CreateEnds(cfg: Config, given: Outside, v: World, offer: OfferId, actor: AgentId, key: Option<Key>) returns (w: World, out: Outcome)
    requires Calm(cfg, v) && OpenReady(cfg, v.db, v.now, Start(Create(offer, actor, key)), NOTHING.(draft := given.draft))
    ensures CalledOn(cfg, Some(given), v, Create(offer, actor, key), w, out)
  {
    hide DbOk, Fact, FrameOk, Leads, Later;
    var f, e := Open(Start(Create(offer, actor, key))), NOTHING.(draft := given.draft);
    StartOk(cfg, v, f.opening.cmd);
    assert Ready(cfg, v.db, v.now, f, e) && Heard(Some(given), f, e);
    FrameStep(cfg, v, f, e);
    var r := Advance(cfg, v.db, v.now, v.cluster, f, e);
    StepFacts(cfg, v, r, {});
    assert v.landed + {} == v.landed;
    w, out := GoingEnds(cfg, given, Interleaving.After(v, r, {}), r.frame);
    LeadsBack(cfg, Some(given), v, f, e, w, out);
  }

  // ---------------------------------------------------------------- a payment all the way

  /** One more call after a run of calls that do not overlap. */
  lemma OneMore(cfg: Config, given: Outside, s: State, cmd: Command) returns (t: State, out: Outcome)
    requires Between(cfg, s) && !cmd.Create? && !cmd.SweepAccepted? && !cmd.SweepOpen?
    ensures Between(cfg, t) && CalledOn(cfg, Some(given), WorldOf(s), cmd, WorldOf(t), out)
    ensures Called(cfg, WorldOf(s), cmd, WorldOf(t), out)
  {
    hide Between, CalledOn, Called, Calm;
    BetweenIsCalm(cfg, s);
    var w;
    w, out := EveryCallEnds(cfg, given, WorldOf(s), cmd);
    CalledIsLeads(cfg, Some(given), WorldOf(s), cmd, w, out);
    t := BetweenCalled(cfg, s, cmd, w, out);
  }

  /** The first trade, its two parties, and who has accepted it so far. */
  ghost predicate Stands(s: State, tr: Trade, state: TradeState, accepted: set<AgentId>)
  {
    && tr.id in s.db.trades && s.db.trades[tr.id].state == state && tr.SameTerms(s.db.trades[tr.id])
    && forall a :: (tr.id, a) in s.db.acceptances <==> a in accepted
  }

  lemma Proposes(cfg: Config, given: Outside, draft: Trade) returns (s: State, tr: Trade)
    requires given.draft == Some(draft) && !cfg.capped && cfg.settlement
    requires draft.state == Proposed && draft.buyer != draft.seller && draft.key.None?
    ensures Between(cfg, s) && Stands(s, tr, Proposed, {}) && tr == draft.(createdAt := 0, updatedAt := 0)
  {
    hide Between, CalledOn, Called, Calm;
    s := Init(0, 0);
    BetweenStarts(cfg, 0, 0);
    BetweenIsCalm(cfg, s);
    var cmd := Create(draft.offer, draft.buyer, None);
    assert OpenReady(cfg, s.db, s.now, Start(cmd), NOTHING.(draft := given.draft));
    var w, out := CreateEnds(cfg, given, WorldOf(s), draft.offer, draft.buyer, None);
    CreateDecides(cfg, given, WorldOf(s), draft.offer, draft.buyer, None, w, out);
    CalledIsLeads(cfg, Some(given), WorldOf(s), cmd, w, out);
    s := BetweenCalled(cfg, s, cmd, w, out);
    tr := draft.(createdAt := 0, updatedAt := 0);
  }

  lemma Agrees(cfg: Config, given: Outside, r: State, tr: Trade) returns (s: State)
    requires Between(cfg, r) && Stands(r, tr, Proposed, {}) && tr.buyer != tr.seller
    ensures Between(cfg, s) && Stands(s, tr, Accepted, {tr.buyer, tr.seller})
  {
    hide Between, CalledOn, Called, Calm;
    BetweenIsCalm(cfg, r);
    var a, out := OneMore(cfg, given, r, Begin(tr.buyer, tr.id));
    BeginDecides(cfg, WorldOf(r), tr.buyer, tr.id, WorldOf(a), out);
    BetweenIsCalm(cfg, a);
    var b;
    b, out := OneMore(cfg, given, a, Accept(tr.buyer, tr.id));
    AcceptDecides(cfg, WorldOf(a), tr.buyer, tr.id, WorldOf(b), out);
    assert Stands(b, tr, Negotiating, {tr.buyer});
    BetweenIsCalm(cfg, b);
    s, out := OneMore(cfg, given, b, Accept(tr.seller, tr.id));
    AcceptDecides(cfg, WorldOf(b), tr.seller, tr.id, WorldOf(s), out);
  }

  /** Where settlement is configured and some transaction pays what a trade asks, a run of
      calls that do not overlap takes such a trade from its proposal to a settlement under a
      signature, with the receipt in the buyer's hands. */
  lemma SettledIsReachable(cfg: Config, draft: Trade, sig: Signature, tx: Transaction) returns (s: State, t: State, out: Outcome)
    requires cfg.settlement && !cfg.capped && draft.mode == Onchain && draft.state == Proposed && draft.key.None?
    requires draft.buyer != draft.seller && cfg.verify(Terms(draft.buyer, draft.seller, draft.amount, draft.mint), tx)
    ensures Between(cfg, s) && Between(cfg, t) && Called(cfg, WorldOf(s), Confirm(draft.buyer, draft.id, sig), WorldOf(t), out)
    ensures draft.id in t.db.trades && t.db.trades[draft.id].state == Settled && out.OkReceipt?
    ensures draft.id in t.db.receipts && t.db.receipts[draft.id] == out.receipt && out.receipt.signature == Some(sig)
  {
    hide Between, CalledOn, Called, Calm;
    var given := Outside((attempt: nat) => Landed(tx, false), true, Some(draft));
    var a, tr := Proposes(cfg, given, draft);
    var b := Agrees(cfg, given, a, tr);
    BetweenIsCalm(cfg, b);
    s, out := OneMore(cfg, given, b, Build(tr.buyer, tr.id));
    BuildDecides(cfg, given, WorldOf(b), tr.buyer, tr.id, WorldOf(s), out);
    var r := out.request;
    forall q ensures OpenFor(s.db, tr.id, q) <==> q == r.id {
      BuiltIsOnlyIssued(WorldOf(b), tr.buyer, tr.id, r, WorldOf(s), q);
    }
    BuiltRow(WorldOf(b), tr, r, WorldOf(s));
    BetweenIsCalm(cfg, s);
    t, out := OneMore(cfg, given, s, Confirm(tr.buyer, tr.id, sig));
    var q := ConfirmDecides(cfg, given, WorldOf(s), tr.buyer, tr.id, sig, WorldOf(t), out);
    assert FirstWord(given, 1, Tries(cfg)) == Landed(tx, false);
    hide FirstWord;
  }

  lemma BuiltRow(v: World, tr: Trade, r: Request, w: World)
    requires tr.id in v.db.trades && v.db.trades[tr.id].state == Accepted && tr.SameTerms(v.db.trades[tr.id])
    requires Builds(v, tr.buyer, tr.id, r, w)
    ensures tr.id in w.db.trades && w.db.trades[tr.id].state == SettlementPending && tr.SameTerms(w.db.trades[tr.id])
    ensures r.id in w.db.requests && w.db.requests[r.id] == r && r.signature.None? && r.cluster == w.cluster
  {
  }
}
