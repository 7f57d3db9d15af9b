/** The marketplace's entities: trades and their state machine, events, settlement
    requests, ledger entries and receipts. Identifiers are natural numbers whose
    order stands for the text order of the stored keys. */
module Domain {
  import opened Options
  import opened Money
  import opened Pricing

  type AgentId = nat
  type TradeId = nat
  type OfferId = nat
  type RequestId = nat
  type Key = nat
  type Signature = nat
  type Cluster = nat
  type Transaction = nat
  type Hash = string
  type Time = int

  datatype Mode = Offchain | Onchain

  datatype TradeState =
    | Proposed
    | Negotiating
    | Accepted
    | SettlementPending
    | Recorded
    | Settled
    | Disputed
    | Resolved
    | Cancelled

  datatype EventType =
    | EventProposed
    | EventNegotiating
    | EventAccepted
    | EventSettlementPending
    | EventRecorded
    | EventSettled
    | EventCancelled
    | EventDisputed
    | EventResolved
    | EventExpired

  datatype Trade = Trade(
    id: TradeId,
    offer: OfferId,
    buyer: AgentId,
    seller: AgentId,
    amount: Amount,
    mint: Mint,
    mode: Mode,
    state: TradeState,
    key: Option<Key>,
    createdAt: Time,
    updatedAt: Time)
  {
    predicate Party(agent: AgentId) { agent == buyer || agent == seller }

    /** The columns no update ever touches. */
    predicate SameTerms(other: Trade)
    {
      this.(state := other.state, updatedAt := other.updatedAt) == other
    }
  }

  /** Sweeps and the reconciler act with no agent behind them. */
  type Actor = Option<AgentId>

  datatype Event = Event(trade: TradeId, actor: Actor, kind: EventType, from: Option<TradeState>, to: TradeState, at: Time)

  datatype RequestStatus = Issued | Confirmed | Expired

  datatype Request = Request(
    id: RequestId,
    trade: TradeId,
    cluster: Cluster,
    status: RequestStatus,
    signature: Option<Signature>,
    createdAt: Time,
    expiresAt: Time)
  {
    /** Holds a usable blockhash. */
    predicate Live(now: Time) { status == Issued && now < expiresAt }
  }

  datatype TradeRecord = TradeRecord(trade: Trade, at: Time)

  datatype Entry = Entry(seqNo: nat, trade: TradeId, record: TradeRecord, payloadHash: Hash, prev: Hash, hash: Hash)

  datatype Receipt = Receipt(
    trade: TradeId,
    record: TradeRecord,
    seqNo: nat,
    entryHash: Hash,
    signature: Option<Signature>,
    cluster: Option<Cluster>)

  /** The transition table: the event each legal move is logged as. */
  function EventFor(from: TradeState, to: TradeState): Option<EventType>
  {
    match (from, to)
    case (Proposed, Negotiating) => Some(EventNegotiating)
    case (Proposed, Cancelled) => Some(EventCancelled)
    case (Negotiating, Accepted) => Some(EventAccepted)
    case (Negotiating, Cancelled) => Some(EventCancelled)
    case (Accepted, SettlementPending) => Some(EventSettlementPending)
    case (Accepted, Recorded) => Some(EventRecorded)
    case (Accepted, Disputed) => Some(EventDisputed)
    case (Accepted, Cancelled) => Some(EventCancelled)
    case (SettlementPending, Settled) => Some(EventSettled)
    case (SettlementPending, Disputed) => Some(EventDisputed)
    case (SettlementPending, Cancelled) => Some(EventCancelled)
    case (Disputed, Resolved) => Some(EventResolved)
    case (_, _) => None
  }

  predicate Edge(from: TradeState, to: TradeState) { EventFor(from, to).Some? }

  /** Absorbing states: no move leaves them. */
  predicate Final(s: TradeState) { s in {Recorded, Settled, Cancelled, Resolved} }

  /** Some run of legal moves leads from one state to the other. */
  predicate Reaches(from: TradeState, to: TradeState)
  {
    match from
    case Proposed => true
    case Negotiating => to != Proposed
    case Accepted => to !in {Proposed, Negotiating}
    case SettlementPending => to in {SettlementPending, Settled, Disputed, Resolved, Cancelled}
    case Disputed => to in {Disputed, Resolved}
    case Recorded => to == Recorded
    case Settled => to == Settled
    case Cancelled => to == Cancelled
    case Resolved => to == Resolved
  }

  /** A path of legal moves between two states. */
  ghost predicate Path(p: seq<TradeState>, from: TradeState, to: TradeState)
  {
    && p != [] && p[0] == from && p[|p| - 1] == to
    && forall i :: 0 <= i < |p| - 1 ==> Edge(p[i], p[i + 1])
  }

  /** The closed form of reachability is exactly the existence of a path, and no
      state is ever revisited. */
  lemma ReachesIsPaths(from: TradeState, to: TradeState)
    ensures Reaches(from, to) <==> exists p :: Path(p, from, to)
    ensures Reaches(from, to) && Reaches(to, from) ==> from == to
    ensures Final(from) <==> forall s :: !Edge(from, s)
  {
    if Reaches(from, to) {
      var p := Witness(from, to);
      assert Path(p, from, to);
    }
    forall p | Path(p, from, to) ensures Reaches(from, to) {
      PathReaches(p, from, to);
    }
    if !Final(from) {
      assert Edge(from, if from == Disputed then Resolved else Cancelled);
    }
  }

  ghost function Witness(from: TradeState, to: TradeState): (p: seq<TradeState>)
    requires Reaches(from, to)
    ensures Path(p, from, to)
  {
    if from == to then [from]
    else if Edge(from, to) then [from, to]
    else if from == Proposed then
      (if to == Accepted then [from, Negotiating, to]
       else if Edge(Accepted, to) then [from, Negotiating, Accepted, to]
       else if to == Settled then [from, Negotiating, Accepted, SettlementPending, to]
       else [from, Negotiating, Accepted, Disputed, to])
    else if from == Negotiating then
      (if Edge(Accepted, to) then [from, Accepted, to]
       else if to == Settled then [from, Accepted, SettlementPending, to]
       else [from, Accepted, Disputed, to])
    else if to == Settled then [from, SettlementPending, to]
    else [from, Disputed, to]
  }

  lemma {:induction false} PathReaches(p: seq<TradeState>, from: TradeState, to: TradeState)
    requires Path(p, from, to)
    ensures Reaches(from, to)
  {
    if |p| > 1 {
      assert Edge(p[0], p[1]);
      assert Path(p[1..], p[1], to) by {
        forall i | 0 <= i < |p[1..]| - 1 ensures Edge(p[1..][i], p[1..][i + 1]) {
          assert Edge(p[i + 1], p[i + 2]);
        }
      }
      PathReaches(p[1..], p[1], to);
    }
  }

  lemma ReachesTransitive(a: TradeState, b: TradeState, c: TradeState)
    requires Reaches(a, b) && Reaches(b, c)
    ensures Reaches(a, c)
  {
  }
}
