/** The stored tables, and each store transaction as a function on them. The Store
    class updates its tables in place; every method is proved to do exactly what its
    transaction function says. */
module Tables {
  import opened Options
  import opened Domain

  /** The chain's first previous-hash and its two digests, taken as parameters. */
  datatype Hasher = Hasher(genesis: Hash, payload: TradeRecord -> Hash, entry: (nat, Hash, Hash) -> Hash)

  datatype Db = Db(
    trades: map<TradeId, Trade>,
    acceptances: map<(TradeId, AgentId), Time>,
    events: seq<Event>,
    requests: map<RequestId, Request>,
    ledger: seq<Entry>,
    receipts: map<TradeId, Receipt>)

  const EMPTY := Db(map[], map[], [], map[], [], map[])

  // ---------------------------------------------------------------- trades

  predicate KeyTaken(db: Db, key: Option<Key>)
  {
    key.Some? && exists t :: t in db.trades && db.trades[t].key == key
  }

  /** The primary key and the idempotency index both refuse a duplicate. */
  predicate CanInsert(db: Db, tr: Trade) { tr.id !in db.trades && !KeyTaken(db, tr.key) }

  function InsertTrade(db: Db, tr: Trade): Db
  {
    if CanInsert(db, tr) then db.(trades := db.trades[tr.id := tr]) else db
  }

  predicate CasApplies(db: Db, id: TradeId, from: TradeState)
  {
    id in db.trades && db.trades[id].state == from
  }

  /** Compare-and-set of a trade's state. */
  function CasState(db: Db, id: TradeId, from: TradeState, to: TradeState, at: Time): Db
  {
    if CasApplies(db, id, from) then
      db.(trades := db.trades[id := db.trades[id].(state := to, updatedAt := at)])
    else db
  }

  function InsertAcceptance(db: Db, id: TradeId, agent: AgentId, at: Time): Db
  {
    if (id, agent) in db.acceptances then db
    else db.(acceptances := db.acceptances[(id, agent) := at])
  }

  function AppendEvent(db: Db, e: Event): Db
  {
    db.(events := db.events + [e])
  }

  /** Both parties of a trade, when they differ, are the acceptances it can hold. */
  function Acceptors(db: Db, tr: Trade): set<AgentId>
  {
    set a | a in {tr.buyer, tr.seller} && (tr.id, a) in db.acceptances
  }

  function FirstAcceptance(db: Db, tr: Trade): Option<Time>
  {
    var b, s := (tr.id, tr.buyer), (tr.id, tr.seller);
    if b in db.acceptances && s in db.acceptances then
      Some(if db.acceptances[b] <= db.acceptances[s] then db.acceptances[b] else db.acceptances[s])
    else if b in db.acceptances then Some(db.acceptances[b])
    else if s in db.acceptances then Some(db.acceptances[s])
    else None
  }

  // ---------------------------------------------------------------- settlement requests

  predicate IssuedFor(r: Request, id: TradeId) { r.trade == id && r.status == Issued }

  function Retire(r: Request, id: TradeId): Request
  {
    if IssuedFor(r, id) then r.(status := Expired) else r
  }

  function RetireAll(rs: map<RequestId, Request>, id: TradeId): map<RequestId, Request>
  {
    map r | r in rs :: Retire(rs[r], id)
  }

  /** Every issued request of a trade becomes expired. */
  function ExpireRequests(db: Db, id: TradeId): Db
  {
    db.(requests := RetireAll(db.requests, id))
  }

  /** Supersede and insert, in one transaction. */
  function CreateRequest(db: Db, r: Request): Db
    requires r.id !in db.requests
  {
    var expired := ExpireRequests(db, r.trade);
    expired.(requests := expired.requests[r.id := r])
  }

  predicate CanSign(db: Db, id: RequestId, sig: Signature)
  {
    id in db.requests && db.requests[id].status == Issued
    && (db.requests[id].signature == None || db.requests[id].signature == Some(sig))
  }

  function SignRequest(db: Db, id: RequestId, sig: Signature): Db
  {
    if CanSign(db, id, sig) then db.(requests := db.requests[id := db.requests[id].(signature := Some(sig))]) else db
  }

  predicate CanConfirm(db: Db, id: RequestId) { id in db.requests && db.requests[id].status == Issued }

  function ConfirmRequest(db: Db, id: RequestId, sig: Signature): Db
  {
    if CanConfirm(db, id) then
      db.(requests := db.requests[id := db.requests[id].(status := Confirmed, signature := Some(sig))])
    else db
  }

  function RequestsOf(db: Db, id: TradeId): map<RequestId, Request>
  {
    map r | r in db.requests && db.requests[r].trade == id :: db.requests[r]
  }

  /** Row order of the request queries. */
  predicate Newer(a: Request, b: Request)
  {
    a.createdAt > b.createdAt || (a.createdAt == b.createdAt && a.id >= b.id)
  }

  predicate IsLatestSigned(rs: map<RequestId, Request>, id: RequestId)
  {
    && id in rs && rs[id].signature.Some?
    && forall r :: r in rs && rs[r].signature.Some? ==> Newer(rs[id], rs[r])
  }

  predicate IsLatest(rs: map<RequestId, Request>, id: RequestId)
  {
    && id in rs && forall r :: r in rs ==> Newer(rs[id], rs[r])
  }

  /** The issued request when there is one, otherwise the newest. */
  predicate IsCurrent(rs: map<RequestId, Request>, id: RequestId)
  {
    && id in rs
    && forall r :: r in rs ==>
         (rs[r].status == Issued ==> rs[id].status == Issued)
         && ((rs[r].status == Issued <==> rs[id].status == Issued) ==> Newer(rs[id], rs[r]))
  }

  predicate HasLiveRequest(db: Db, id: TradeId, now: Time)
  {
    exists r :: r in db.requests && db.requests[r].trade == id && db.requests[r].Live(now)
  }

  // ---------------------------------------------------------------- ledger

  function HeadHash(h: Hasher, ledger: seq<Entry>): Hash
  {
    if ledger == [] then h.genesis else ledger[|ledger| - 1].hash
  }

  predicate HasEntry(db: Db, id: TradeId) { exists e :: e in db.ledger && e.trade == id }

  function NextEntry(db: Db, h: Hasher, record: TradeRecord): Entry
  {
    var prev, ph := HeadHash(h, db.ledger), h.payload(record);
    Entry(|db.ledger| + 1, record.trade.id, record, ph, prev, h.entry(|db.ledger| + 1, prev, ph))
  }

  datatype AppendResult = Appended(entry: Entry) | Stale | Duplicate

  /** Optimistic append: the caller names the head it read. */
  function AppendOutcome(db: Db, h: Hasher, record: TradeRecord, prev: Hash): AppendResult
  {
    if HeadHash(h, db.ledger) != prev then Stale
    else if HasEntry(db, record.trade.id) then Duplicate
    else Appended(NextEntry(db, h, record))
  }

  function AppendEntry(db: Db, h: Hasher, record: TradeRecord, prev: Hash): Db
  {
    var out := AppendOutcome(db, h, record, prev);
    if out.Appended? then db.(ledger := db.ledger + [out.entry]) else db
  }

  function InsertReceipt(db: Db, r: Receipt): Db
  {
    if r.trade in db.receipts then db else db.(receipts := db.receipts[r.trade := r])
  }

  // ---------------------------------------------------------------- the store itself

  class Store {
    const hasher: Hasher
    var trades: map<TradeId, Trade>
    var acceptances: map<(TradeId, AgentId), Time>
    var events: seq<Event>
    var requests: map<RequestId, Request>
    var ledger: seq<Entry>
    var receipts: map<TradeId, Receipt>

    function Snapshot(): Db
      reads this
    {
      Db(trades, acceptances, events, requests, ledger, receipts)
    }

    constructor (hasher: Hasher)
      ensures Snapshot() == EMPTY && this.hasher == hasher
    {
      this.hasher := hasher;
      trades, acceptances, events, requests, ledger, receipts := map[], map[], [], map[], [], map[];
    }

    method CreateTrade(tr: Trade) returns (ok: bool)
      modifies this
      ensures ok == CanInsert(old(Snapshot()), tr)
      ensures Snapshot() == InsertTrade(old(Snapshot()), tr)
    {
      ok := CanInsert(Snapshot(), tr);
      if ok {
        trades := trades[tr.id := tr];
      }
    }

    method SetTradeState(id: TradeId, from: TradeState, to: TradeState, at: Time) returns (changed: bool)
      modifies this
      ensures changed == CasApplies(old(Snapshot()), id, from)
      ensures Snapshot() == CasState(old(Snapshot()), id, from, to, at)
    {
      changed := id in trades && trades[id].state == from;
      if changed {
        trades := trades[id := trades[id].(state := to, updatedAt := at)];
      }
    }

    method AddTradeAcceptance(id: TradeId, agent: AgentId, at: Time) returns (inserted: bool)
      modifies this
      ensures inserted == ((id, agent) !in old(acceptances))
      ensures Snapshot() == InsertAcceptance(old(Snapshot()), id, agent, at)
    {
      inserted := (id, agent) !in acceptances;
      if inserted {
        acceptances := acceptances[(id, agent) := at];
      }
    }

    method AppendTradeEvent(e: Event)
      modifies this
      ensures Snapshot() == AppendEvent(old(Snapshot()), e)
    {
      events := events + [e];
    }

    method ExpireSettlementRequests(id: TradeId)
      modifies this
      ensures Snapshot() == ExpireRequests(old(Snapshot()), id)
    {
      var todo := requests.Keys;
      while todo != {}
        invariant todo <= requests.Keys == old(requests.Keys)
        invariant Snapshot() == old(Snapshot()).(requests := requests)
        invariant forall r :: r in requests ==>
                    requests[r] == if r in todo then old(requests[r]) else Retire(old(requests[r]), id)
        decreases todo
      {
        var r :| r in todo;
        if requests[r].trade == id && requests[r].status == Issued {
          requests := requests[r := requests[r].(status := Expired)];
        }
        todo := todo - {r};
      }
      assert requests == ExpireRequests(old(Snapshot()), id).requests;
    }

    method CreateSettlementRequest(r: Request)
      requires r.id !in requests
      modifies this
      ensures Snapshot() == CreateRequest(old(Snapshot()), r)
    {
      ExpireSettlementRequests(r.trade);
      requests := requests[r.id := r];
    }

    method SetSettlementSignature(id: RequestId, sig: Signature) returns (ok: bool)
      modifies this
      ensures ok == CanSign(old(Snapshot()), id, sig)
      ensures Snapshot() == SignRequest(old(Snapshot()), id, sig)
    {
      ok := id in requests && requests[id].status == Issued
            && (requests[id].signature == None || requests[id].signature == Some(sig));
      if ok {
        requests := requests[id := requests[id].(signature := Some(sig))];
      }
    }

    method ConfirmSettlementRequest(id: RequestId, sig: Signature) returns (ok: bool)
      modifies this
      ensures ok == CanConfirm(old(Snapshot()), id)
      ensures Snapshot() == ConfirmRequest(old(Snapshot()), id, sig)
    {
      ok := id in requests && requests[id].status == Issued;
      if ok {
        requests := requests[id := requests[id].(status := Confirmed, signature := Some(sig))];
      }
    }

    /** Reads the head and inserts the next row under one write lock. */
    method AppendLedgerEntry(record: TradeRecord, prev: Hash) returns (out: AppendResult)
      modifies this
      ensures out == AppendOutcome(old(Snapshot()), hasher, record, prev)
      ensures Snapshot() == AppendEntry(old(Snapshot()), hasher, record, prev)
    {
      var head, next := hasher.genesis, 1;
      if |ledger| > 0 {
        head, next := ledger[|ledger| - 1].hash, |ledger| + 1;
      }
      if head != prev {
        return Stale;
      }
      for i := 0 to |ledger|
        invariant forall j :: 0 <= j < i ==> ledger[j].trade != record.trade.id
      {
        if ledger[i].trade == record.trade.id {
          assert ledger[i] in ledger;
          return Duplicate;
        }
      }
      var ph := hasher.payload(record);
      var entry := Entry(next, record.trade.id, record, ph, head, hasher.entry(next, head, ph));
      ledger := ledger + [entry];
      out := Appended(entry);
    }

    method SaveReceipt(r: Receipt) returns (ok: bool)
      modifies this
      ensures ok == (r.trade !in old(receipts))
      ensures Snapshot() == InsertReceipt(old(Snapshot()), r)
    {
      ok := r.trade !in receipts;
      if ok {
        receipts := receipts[r.trade := r];
      }
    }
  }
}
