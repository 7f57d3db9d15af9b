/** The trade, settlement and reconcile protocol at its fine grain.

    A state holds the tables and every call in flight. A step runs one call up to and
    including its next store access: each access is one transaction, because the store
    serialises its writes, and between two steps of a call any other call may step. A
    call's frame is its program counter with its local, possibly stale, copies. A clock
    reading used as a stamp is taken one step before the write it stamps. */
module Protocol {
  import opened Options
  import opened Domain
  import opened Tables
  import Money
  import Pricing

  // ---------------------------------------------------------------- configuration

  /** What a settlement transaction is verified against. */
  datatype Terms = Terms(buyer: AgentId, seller: AgentId, amount: Money.Amount, mint: Pricing.Mint)

  function TermsOf(tr: Trade): Terms { Terms(tr.buyer, tr.seller, tr.amount, tr.mint) }

  datatype Config = Config(
    hasher: Hasher,
    settlement: bool,
    acceptTtl: int,
    openTtl: int,
    attempts: nat,
    capped: bool,
    verify: (Terms, Transaction) -> bool,
    admits: (Db, Trade, Option<TradeId>, Time) -> bool)

  const APPEND_ATTEMPTS := 3

  // ---------------------------------------------------------------- calls

  datatype Command =
    | Create(offer: OfferId, actor: AgentId, key: Option<Key>)
    | Begin(actor: AgentId, id: TradeId)
    | Accept(actor: AgentId, id: TradeId)
    | Cancel(actor: AgentId, id: TradeId)
    | Dispute(actor: AgentId, id: TradeId)
    | Record(actor: AgentId, id: TradeId)
    | Resolve(id: TradeId)
    | Build(actor: AgentId, id: TradeId)
    | Confirm(actor: AgentId, id: TradeId, sig: Signature)
    | Reconcile(id: TradeId)
    | SweepAccepted(limit: nat)
    | SweepOpen(limit: nat)

  /** A call repeated on a delivered trade hands out the receipt already saved. */
  datatype Outcome =
    | Refused
    | OkTrade(tr: Trade)
    | OkRequest(request: Request)
    | OkReceipt(receipt: Receipt)
    | OkRepeat(tr: Trade, receipt: Receipt)
    | Swept

  /** What a call does after its state change has been attempted. */
  datatype Cont =
    | Return
    | Refuse
    | ThenLedger(sig: Option<Signature>)
    | ThenRequest(request: Request)
    | ThenSweep(rest: seq<Trade>, cutoff: Option<Time>)

  datatype Opening =
    | Start(cmd: Command)
    | CreateLock(draft: Trade, actor: AgentId)
    | CreateCheck(draft: Trade, actor: AgentId)
    | CreateInsert(draft: Trade, actor: AgentId)
    | CreateLog(tr: Trade, actor: AgentId, at: Time)
    | Repeating(tr: Trade)

  datatype Agreeing =
    | AcceptInsert(tr: Trade, actor: AgentId, at: Time)
    | AcceptReturn(id: TradeId)
    | AcceptRow(id: TradeId, actor: AgentId)
    | AcceptCount(row: Trade, actor: AgentId)

  datatype Leaving =
    | CancelLive(tr: Trade, actor: AgentId)
    | CancelDeadline(tr: Trade, actor: AgentId)
    | Spending(tr: Trade, actor: AgentId, build: bool)
    | Building(tr: Trade, actor: AgentId, at: Time)

  datatype Settling =
    | ConfirmList(tr: Trade, sig: Signature)
    | ConfirmCurrent(tr: Trade, sig: Signature, list: map<RequestId, Request>)
    | Signing(tr: Trade, sig: Signature, list: map<RequestId, Request>, cur: RequestId)
    | Fetching(tr: Trade, sig: Signature, list: map<RequestId, Request>, found: Option<RequestId>, attempt: nat)
    | ReconcileList(tr: Trade)
    | Refetching(tr: Trade, sig: Signature, list: map<RequestId, Request>, cur: RequestId, began: Time)
    | Lapsing(tr: Trade)
    | Withdrawing(tr: Trade)
    | Confirming(tr: Trade, sig: Signature, list: map<RequestId, Request>, cur: RequestId)
    | Superseding(tr: Trade, sig: Signature)

  /** A sweep pass: loading the batch row by row, then expiring it row by row. The open
      sweep carries its cutoff; the accepted sweep has none. */
  datatype Sweeping =
    | Loading(ids: seq<TradeId>, loaded: seq<Trade>, cutoff: Option<Time>)
    | Expiring(rest: seq<Trade>, cutoff: Option<Time>)

  /** One guarded state change: compare-and-set, event, re-read. */
  datatype Moving =
    | Applying(tr: Trade, agent: Actor, to: TradeState, kind: EventType, cont: Cont, at: Time)
    | Logging(tr: Trade, agent: Actor, to: TradeState, kind: EventType, cont: Cont, at: Time)
    | Rereading(id: TradeId, cont: Cont)

  /** Issuing a receipt. The chain's length at the first read and at the last read is
      noted beside the program's own locals. */
  datatype Stamping =
    | ReceiptCheck(tr: Trade, proof: Option<Signature>)
    | Heading(record: TradeRecord, proof: Option<Signature>, attempt: nat, start: nat)
    | Appending(record: TradeRecord, proof: Option<Signature>, prev: Hash, attempt: nat, start: nat, seen: nat)
    | Saving(record: TradeRecord, proof: Option<Signature>, entry: Entry)

  datatype Frame =
    | Open(opening: Opening)
    | Agree(agreeing: Agreeing)
    | Leave(leaving: Leaving)
    | Settle(settling: Settling)
    | Sweep(sweeping: Sweeping)
    | Move(moving: Moving)
    | Stamp(stamping: Stamping)
    | Returned(out: Outcome)

  datatype Answer = NotFound | Unreachable | Landed(tx: Transaction, failed: bool)

  /** Everything a step takes from outside the store: oracle answers, generated
      identifiers, and the row order the queries return. */
  datatype Env = Env(
    draft: Option<Trade>,
    ok: bool,
    freshId: RequestId,
    expiresAt: Time,
    pick: RequestId,
    answer: Answer,
    batch: seq<TradeId>)

  // ---------------------------------------------------------------- one state change

  datatype Effect = Effect(db: Db, frame: Frame)

  /** The guard in front of every compare-and-set: the caller's copy must allow the move. */
  function Apply(tr: Trade, agent: Actor, to: TradeState, override: Option<EventType>, cont: Cont, now: Time): Frame
  {
    match EventFor(tr.state, to)
    case None => Returned(Refused)
    case Some(kind) => Move(Applying(tr, agent, to, if override.Some? then override.value else kind, cont, now))
  }

  function AdvanceMove(db: Db, now: Time, m: Moving): Effect
  {
    match m
    case Applying(tr, agent, to, kind, cont, at) =>
      Effect(CasState(db, tr.id, tr.state, to, at),
             if CasApplies(db, tr.id, tr.state) then Move(Logging(tr, agent, to, kind, cont, now))
             else Move(Rereading(tr.id, cont)))
    case Logging(tr, agent, to, kind, cont, at) =>
      Effect(AppendEvent(db, Event(tr.id, agent, kind, Some(tr.state), to, at)), Move(Rereading(tr.id, cont)))
    case Rereading(id, cont) =>
      Effect(db, if id !in db.trades then Returned(Refused)
                 else match cont
                      case Return => Returned(OkTrade(db.trades[id]))
                      case Refuse => Returned(Refused)
                      case ThenLedger(sig) => Stamp(ReceiptCheck(db.trades[id], sig))
                      case ThenRequest(r) => Returned(OkRequest(r))
                      case ThenSweep(rest, cutoff) => Sweep(Expiring(rest, cutoff)))
  }

  // ---------------------------------------------------------------- opening a call

  function Begun(cfg: Config, cmd: Command, tr: Trade, now: Time): Frame
    requires !cmd.Create? && !cmd.SweepAccepted? && !cmd.SweepOpen?
  {
    match cmd
    case Begin(actor, _) =>
      if !tr.Party(actor) then Returned(Refused)
      else if tr.state == Negotiating then Returned(OkTrade(tr))
      else if tr.state != Proposed then Returned(Refused)
      else Apply(tr, Some(actor), Negotiating, None, Return, now)
    case Accept(actor, _) =>
      if !tr.Party(actor) then Returned(Refused)
      else if tr.state == Accepted || tr.state == Recorded then Returned(OkTrade(tr))
      else if tr.state != Negotiating then Returned(Refused)
      else Agree(AcceptInsert(tr, actor, now))
    case Cancel(actor, _) =>
      if !tr.Party(actor) then Returned(Refused)
      else if tr.state == Cancelled then Returned(OkTrade(tr))
      else Leave(CancelLive(tr, actor))
    case Dispute(actor, _) =>
      if !tr.Party(actor) then Returned(Refused)
      else if tr.state == Disputed then Returned(OkTrade(tr))
      else Apply(tr, Some(actor), Disputed, None, Return, now)
    case Record(actor, _) =>
      if !tr.Party(actor) then Returned(Refused)
      else if tr.state == Recorded then Open(Repeating(tr))
      else Leave(Spending(tr, actor, false))
    case Resolve(_) =>
      if tr.state == Resolved then Returned(OkTrade(tr))
      else if tr.state != Disputed then Returned(Refused)
      else Apply(tr, None, Resolved, Some(EventResolved), Return, now)
    case Build(actor, _) =>
      if !tr.Party(actor) || !cfg.settlement then Returned(Refused)
      else if tr.buyer != actor || tr.mode != Onchain then Returned(Refused)
      else if tr.state != Accepted && tr.state != SettlementPending then Returned(Refused)
      else Leave(Spending(tr, actor, true))
    case Confirm(actor, _, sig) =>
      if !tr.Party(actor) || !cfg.settlement || tr.mode != Onchain then Returned(Refused)
      else if tr.state == Settled || tr.state == Recorded then Open(Repeating(tr))
      else if tr.state != SettlementPending then Returned(Refused)
      else Settle(ConfirmList(tr, sig))
    case Reconcile(_) =>
      if !cfg.settlement || tr.state != SettlementPending || tr.mode != Onchain then Returned(Refused)
      else Settle(ReconcileList(tr))
  }

  /** The sweep queries bound their batch, reading zero as one hundred. */
  function Bound(limit: nat): nat { if limit == 0 then 100 else limit }

  predicate AcceptedRow(db: Db, id: TradeId, deadline: Time)
  {
    && id in db.trades && db.trades[id].state == Accepted
    && FirstAcceptance(db, db.trades[id]).Some? && FirstAcceptance(db, db.trades[id]).value <= deadline
  }

  predicate OpenRow(db: Db, id: TradeId, cutoff: Time)
  {
    && id in db.trades && db.trades[id].state in {Proposed, Negotiating} && db.trades[id].updatedAt <= cutoff
  }

  /** A legal answer to a sweep query: the matching rows, oldest update first, bounded. */
  ghost predicate IsBatch(db: Db, batch: seq<TradeId>, limit: nat, row: TradeId -> bool)
  {
    && |batch| <= Bound(limit)
    && (forall i :: 0 <= i < |batch| ==> batch[i] in db.trades && row(batch[i]))
    && (forall i, j :: 0 <= i < j < |batch| ==> batch[i] != batch[j])
    && (forall i, id :: 0 <= i < |batch| && id in db.trades && row(id) && id !in batch ==>
          batch[i] in db.trades && db.trades[batch[i]].updatedAt <= db.trades[id].updatedAt)
    && (forall id :: id in db.trades && row(id) && id !in batch ==> |batch| == Bound(limit))
  }

  ghost predicate OpenReady(cfg: Config, db: Db, now: Time, o: Opening, e: Env)
  {
    match o
    case Start(Create(offer, actor, key)) =>
      e.draft.Some? ==>
        var tr := e.draft.value;
        && tr.offer == offer && tr.key == key && tr.state == Proposed
        && tr.Party(actor) && tr.buyer != tr.seller
        && (tr.mode == Onchain ==> cfg.settlement)
    case Start(SweepAccepted(limit)) => IsBatch(db, e.batch, limit, (id: TradeId) => AcceptedRow(db, id, now))
    case Start(SweepOpen(limit)) => IsBatch(db, e.batch, limit, (id: TradeId) => OpenRow(db, id, now - cfg.openTtl))
    case _ => true
  }

  ghost function AdvanceOpen(cfg: Config, db: Db, now: Time, o: Opening, e: Env): Effect
    requires OpenReady(cfg, db, now, o, e)
  {
    match o
    case Start(Create(offer, actor, key)) =>
      if KeyTaken(db, key) then
        Effect(db, Returned(OkTrade(var t :| t in db.trades && db.trades[t].key == key; db.trades[t])))
      else if e.draft.None? then Effect(db, Returned(Refused))
      else if cfg.capped then Effect(db, Open(CreateLock(e.draft.value, actor)))
      else Effect(db, Open(CreateInsert(e.draft.value.(createdAt := now, updatedAt := now), actor)))
    case Start(SweepAccepted(limit)) =>
      Effect(db, if cfg.acceptTtl <= 0 then Returned(Swept) else Sweep(Loading(e.batch, [], None)))
    case Start(SweepOpen(limit)) =>
      Effect(db, if cfg.openTtl <= 0 then Returned(Swept) else Sweep(Loading(e.batch, [], Some(now - cfg.openTtl))))
    case Start(cmd) =>
      Effect(db, if cmd.id !in db.trades then Returned(Refused) else Begun(cfg, cmd, db.trades[cmd.id], now))
    case CreateLock(tr, actor) => Effect(db, Open(CreateCheck(tr, actor)))
    case CreateCheck(tr, actor) =>
      Effect(db, if cfg.admits(db, tr, None, now) then Open(CreateInsert(tr.(createdAt := now, updatedAt := now), actor))
                 else Returned(Refused))
    case CreateInsert(tr, actor) =>
      Effect(InsertTrade(db, tr), if CanInsert(db, tr) then Open(CreateLog(tr, actor, now)) else Returned(Refused))
    case CreateLog(tr, actor, at) =>
      Effect(AppendEvent(db, Event(tr.id, Some(actor), EventProposed, None, Proposed, at)), Returned(OkTrade(tr)))
    case Repeating(tr) =>
      Effect(db, Returned(if tr.id in db.receipts then OkRepeat(tr, db.receipts[tr.id]) else Refused))
  }

  // ---------------------------------------------------------------- accepting

  function AdvanceAgree(db: Db, now: Time, a: Agreeing): Effect
  {
    match a
    case AcceptInsert(tr, actor, at) =>
      Effect(InsertAcceptance(db, tr.id, actor, at),
             if (tr.id, actor) in db.acceptances then Agree(AcceptReturn(tr.id)) else Agree(AcceptRow(tr.id, actor)))
    case AcceptReturn(id) =>
      Effect(db, if id in db.trades then Returned(OkTrade(db.trades[id])) else Returned(Refused))
    case AcceptRow(id, actor) =>
      Effect(db, if id in db.trades then Agree(AcceptCount(db.trades[id], actor)) else Returned(Refused))
    case AcceptCount(row, actor) =>
      Effect(db, if |Acceptors(db, row)| < 2 then Returned(OkTrade(row))
                 else Apply(row, Some(actor), Accepted, None, Return, now))
  }

  // ---------------------------------------------------------------- leaving accepted

  /** An accepted trade with a configured deadline that has passed. */
  predicate PastDeadline(cfg: Config, db: Db, tr: Trade, now: Time)
  {
    && cfg.acceptTtl > 0 && tr.state == Accepted
    && FirstAcceptance(db, tr).Some? && FirstAcceptance(db, tr).value + cfg.acceptTtl <= now
  }

  predicate LeaveReady(db: Db, l: Leaving, e: Env) { l.Building? ==> e.freshId !in db.requests }

  function NewRequest(tr: Trade, cluster: Cluster, at: Time, e: Env): Request
  {
    Request(e.freshId, tr.id, cluster, Issued, None, at, e.expiresAt)
  }

  function AdvanceLeave(cfg: Config, db: Db, now: Time, cluster: Cluster, l: Leaving, e: Env): Effect
    requires LeaveReady(db, l, e)
  {
    match l
    case CancelLive(tr, actor) =>
      Effect(db, if cfg.settlement && HasLiveRequest(db, tr.id, now) then Returned(Refused)
                 else if tr.state == Accepted then Leave(CancelDeadline(tr, actor))
                 else Apply(tr, Some(actor), Cancelled, None, Return, now))
    case CancelDeadline(tr, actor) =>
      Effect(db, if PastDeadline(cfg, db, tr, now) then Apply(tr, Some(actor), Cancelled, None, Return, now)
                 else Returned(Refused))
    case Spending(tr, actor, build) =>
      Effect(db, if cfg.capped && !cfg.admits(db, tr, Some(tr.id), now) then Returned(Refused)
                 else if build then (if e.ok then Leave(Building(tr, actor, now)) else Returned(Refused))
                 else Apply(tr, Some(actor), Recorded, None, ThenLedger(None), now))
    case Building(tr, actor, at) =>
      var r := NewRequest(tr, cluster, at, e);
      Effect(CreateRequest(db, r),
             if tr.state == Accepted then Apply(tr, Some(actor), SettlementPending, None, ThenRequest(r), now)
             else Returned(OkRequest(r)))
  }

  // ---------------------------------------------------------------- settling

  /** A request whose cluster is not the running one is refused; one the caller's list
      does not show passes. */
  predicate ClusterOk(list: map<RequestId, Request>, cur: RequestId, cluster: Cluster)
  {
    cur in list ==> list[cur].cluster == cluster
  }

  function Attempts(cfg: Config): nat { if cfg.attempts < 1 then 1 else cfg.attempts }

  /** The verdict on a transaction found on chain, shared by confirm and reconcile. */
  function Judge(cfg: Config, tr: Trade, sig: Signature, list: map<RequestId, Request>, found: Option<RequestId>,
                 cluster: Cluster, tx: Transaction, failed: bool, termsOk: bool, now: Time): Frame
  {
    if found.Some? && !ClusterOk(list, found.value, cluster) then Returned(Refused)
    else if failed then Settle(Withdrawing(tr))
    else if !termsOk then Returned(Refused)
    else if !cfg.verify(TermsOf(tr), tx) then Apply(tr, Some(tr.buyer), Disputed, None, Refuse, now)
    else if found.Some? then Settle(Confirming(tr, sig, list, found.value))
    else Apply(tr, Some(tr.buyer), Settled, None, ThenLedger(Some(sig)), now)
  }

  predicate AnySigned(list: map<RequestId, Request>) { exists r :: r in list && list[r].signature.Some? }

  ghost predicate SettleReady(db: Db, s: Settling, e: Env)
  {
    match s
    case ConfirmCurrent(tr, _, _) =>
      RequestsOf(db, tr.id) != map[] ==> IsCurrent(RequestsOf(db, tr.id), e.pick)
    case ReconcileList(tr) =>
      var list := RequestsOf(db, tr.id);
      if AnySigned(list) then IsLatestSigned(list, e.pick) else list != map[] ==> IsLatest(list, e.pick)
    case _ => true
  }

  ghost function AdvanceSettle(cfg: Config, db: Db, now: Time, cluster: Cluster, s: Settling, e: Env): Effect
    requires SettleReady(db, s, e)
  {
    match s
    case ConfirmList(tr, sig) => Effect(db, Settle(ConfirmCurrent(tr, sig, RequestsOf(db, tr.id))))
    case ConfirmCurrent(tr, sig, list) =>
      Effect(db, if RequestsOf(db, tr.id) == map[] then Settle(Fetching(tr, sig, list, None, 1))
                 else if !ClusterOk(list, e.pick, cluster) then Returned(Refused)
                 else Settle(Signing(tr, sig, list, e.pick)))
    case Signing(tr, sig, list, cur) =>
      Effect(SignRequest(db, cur, sig),
             if CanSign(db, cur, sig) then Settle(Fetching(tr, sig, list, Some(cur), 1)) else Returned(Refused))
    case Fetching(tr, sig, list, found, attempt) =>
      Effect(db, match e.answer
                 case NotFound =>
                   if attempt >= Attempts(cfg) then Returned(Refused)
                   else Settle(Fetching(tr, sig, list, found, attempt + 1))
                 case Unreachable => Returned(Refused)
                 case Landed(tx, failed) => Judge(cfg, tr, sig, list, found, cluster, tx, failed, e.ok, now))
    case ReconcileList(tr) =>
      var list := RequestsOf(db, tr.id);
      Effect(db, if !AnySigned(list) then
                   (if e.pick in list && list[e.pick].status == Issued && list[e.pick].expiresAt <= now
                    then Settle(Lapsing(tr)) else Returned(Refused))
                 else if !ClusterOk(list, e.pick, cluster) then Settle(Withdrawing(tr))
                 else Settle(Refetching(tr, list[e.pick].signature.value, list, e.pick, now)))
    case Refetching(tr, sig, list, cur, began) =>
      Effect(db, match e.answer
                 case NotFound =>
                   if cur in list && list[cur].status == Issued && list[cur].expiresAt <= began
                   then Settle(Lapsing(tr)) else Returned(Refused)
                 case Unreachable => Returned(Refused)
                 case Landed(tx, failed) => Judge(cfg, tr, sig, list, Some(cur), cluster, tx, failed, e.ok, now))
    case Lapsing(tr) =>
      Effect(ExpireRequests(db, tr.id), Apply(tr, None, Cancelled, Some(EventExpired), Return, now))
    case Withdrawing(tr) => Effect(ExpireRequests(db, tr.id), Returned(Refused))
    case Confirming(tr, sig, list, cur) =>
      Effect(ConfirmRequest(db, cur, sig),
             if !CanConfirm(db, cur) then Returned(Refused)
             else if cur in list && |list| > 1 then Settle(Superseding(tr, sig))
             else Apply(tr, Some(tr.buyer), Settled, None, ThenLedger(Some(sig)), now))
    case Superseding(tr, sig) =>
      Effect(ExpireRequests(db, tr.id), Apply(tr, Some(tr.buyer), Settled, None, ThenLedger(Some(sig)), now))
  }

  // ---------------------------------------------------------------- sweeping

  /** The per-trade re-check of a sweep: the accepted sweep re-reads the deadline, the
      open sweep trusts its copy. */
  predicate Expirable(cfg: Config, db: Db, tr: Trade, cutoff: Option<Time>, now: Time)
  {
    match cutoff
    case None => PastDeadline(cfg, db, tr, now)
    case Some(at) => tr.state in {Proposed, Negotiating} && tr.updatedAt <= at
  }

  function AdvanceSweep(cfg: Config, db: Db, now: Time, s: Sweeping): Effect
  {
    match s
    case Loading(ids, loaded, cutoff) =>
      Effect(db, if ids == [] then Sweep(Expiring(loaded, cutoff))
                 else if ids[0] !in db.trades then Returned(Refused)
                 else Sweep(Loading(ids[1..], loaded + [db.trades[ids[0]]], cutoff)))
    case Expiring(rest, cutoff) =>
      Effect(db, if rest == [] then Returned(Swept)
                 else if Expirable(cfg, db, rest[0], cutoff, now) then
                   Apply(rest[0], None, Cancelled, Some(EventExpired), ThenSweep(rest[1..], cutoff), now)
                 else Sweep(Expiring(rest[1..], cutoff)))
  }

  // ---------------------------------------------------------------- issuing a receipt

  function ReceiptFor(record: TradeRecord, proof: Option<Signature>, entry: Entry, cluster: Cluster): Receipt
  {
    Receipt(record.trade.id, record, entry.seqNo, entry.hash, proof, if proof.Some? then Some(cluster) else None)
  }

  function AdvanceStamp(cfg: Config, db: Db, now: Time, cluster: Cluster, p: Stamping): Effect
  {
    match p
    case ReceiptCheck(tr, proof) =>
      Effect(db, if tr.state != Recorded && tr.state != Settled then Returned(Refused)
                 else if tr.id in db.receipts then Returned(Refused)
                 else Stamp(Heading(TradeRecord(tr, now), proof, 0, |db.ledger|)))
    case Heading(record, proof, attempt, start) =>
      Effect(db, Stamp(Appending(record, proof, HeadHash(cfg.hasher, db.ledger), attempt, start, |db.ledger|)))
    case Appending(record, proof, prev, attempt, start, seen) =>
      Effect(AppendEntry(db, cfg.hasher, record, prev),
             match AppendOutcome(db, cfg.hasher, record, prev)
             case Appended(entry) => Stamp(Saving(record, proof, entry))
             case Stale =>
               if attempt + 1 >= APPEND_ATTEMPTS then Returned(Refused)
               else Stamp(Heading(record, proof, attempt + 1, start))
             case Duplicate => Returned(Refused))
    case Saving(record, proof, entry) =>
      var r := ReceiptFor(record, proof, entry, cluster);
      Effect(InsertReceipt(db, r), if r.trade in db.receipts then Returned(Refused) else Returned(OkReceipt(r)))
  }

  // ---------------------------------------------------------------- one step of a call

  /** What the environment owes a step: fresh identifiers, well-formed drafts, and
      query results in the order the queries ask for. */
  ghost predicate Ready(cfg: Config, db: Db, now: Time, f: Frame, e: Env)
  {
    match f
    case Open(o) => OpenReady(cfg, db, now, o, e)
    case Leave(l) => LeaveReady(db, l, e)
    case Settle(s) => SettleReady(db, s, e)
    case _ => true
  }

  /** At most one transaction, and the frame it leaves. */
  ghost function Advance(cfg: Config, db: Db, now: Time, cluster: Cluster, f: Frame, e: Env): Effect
    requires Ready(cfg, db, now, f, e)
  {
    match f
    case Open(o) => AdvanceOpen(cfg, db, now, o, e)
    case Agree(a) => AdvanceAgree(db, now, a)
    case Leave(l) => AdvanceLeave(cfg, db, now, cluster, l, e)
    case Settle(s) => AdvanceSettle(cfg, db, now, cluster, s, e)
    case Sweep(s) => AdvanceSweep(cfg, db, now, s)
    case Move(m) => AdvanceMove(db, now, m)
    case Stamp(p) => AdvanceStamp(cfg, db, now, cluster, p)
    case Returned(_) => Effect(db, f)
  }

  // ---------------------------------------------------------------- the whole system

  type CallId = nat

  datatype State = State(
    db: Db,
    now: Time,
    cluster: Cluster,
    calls: map<CallId, Frame>,
    lock: Option<CallId>,
    landed: set<(Signature, Transaction)>)

  datatype Step =
    | Invoke(c: CallId, cmd: Command)
    | Run(c: CallId, e: Env)
    | Tick(to: Time)
    | Repoint(cluster: Cluster)

  /** Frames inside the section the reservation lock guards. */
  predicate Holds(f: Frame)
  {
    f.Open? && (f.opening.CreateCheck? || f.opening.CreateInsert? || f.opening.CreateLog?)
  }

  predicate Waits(f: Frame) { f.Open? && f.opening.CreateLock? }

  /** Transactions a step is shown to have executed without error, with the signature
      asked for. */
  function Shown(f: Frame, e: Env): set<(Signature, Transaction)>
  {
    if f.Settle? && (f.settling.Fetching? || f.settling.Refetching?) && e.answer.Landed? && !e.answer.failed
    then {(f.settling.sig, e.answer.tx)} else {}
  }

  function Init(now: Time, cluster: Cluster): State { State(EMPTY, now, cluster, map[], None, {}) }

  ghost predicate Enabled(cfg: Config, s: State, step: Step)
  {
    match step
    case Invoke(c, cmd) => c !in s.calls
    case Run(c, e) =>
      && c in s.calls && !s.calls[c].Returned? && Ready(cfg, s.db, s.now, s.calls[c], e)
      && (Waits(s.calls[c]) ==> s.lock.None?)
    case Tick(to) => s.now <= to
    // A process changes the cluster it runs only by restarting, with no call in flight.
    case Repoint(_) => forall c :: c in s.calls ==> s.calls[c].Returned?
  }

  function NextLock(lock: Option<CallId>, c: CallId, f: Frame, f': Frame): Option<CallId>
  {
    if Waits(f) then Some(c) else if lock == Some(c) && !Holds(f') then None else lock
  }

  ghost function Next(cfg: Config, s: State, step: Step): State
    requires Enabled(cfg, s, step)
  {
    match step
    case Invoke(c, cmd) => s.(calls := s.calls[c := Open(Start(cmd))])
    case Run(c, e) =>
      var f := s.calls[c];
      var r := Advance(cfg, s.db, s.now, s.cluster, f, e);
      State(r.db, s.now, s.cluster, s.calls[c := r.frame], NextLock(s.lock, c, f, r.frame), s.landed + Shown(f, e))
    case Tick(to) => s.(now := to)
    case Repoint(cluster) => s.(cluster := cluster)
  }

  /** A run from the empty store: each state follows from the last by an enabled step. */
  ghost predicate IsRun(cfg: Config, states: seq<State>, steps: seq<Step>)
  {
    && |states| == |steps| + 1
    && states[0] == Init(states[0].now, states[0].cluster)
    && forall i :: 0 <= i < |steps| ==> Enabled(cfg, states[i], steps[i]) && states[i + 1] == Next(cfg, states[i], steps[i])
  }
}
