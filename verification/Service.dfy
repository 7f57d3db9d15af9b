/** The trade service itself: methods that read and write the store in place. Each public
    method is proved to do exactly what the protocol's steps for its command do when no
    other call runs, and to keep every invariant claimed between calls. */
module Services {
  import opened Options
  import opened Domain
  import opened Tables
  import opened Protocol
  import opened Safety
  import opened Transactions
  import opened Interleaving
  import opened Runs
  import opened EventLog
  import opened MethodGrain
  import opened Sequential
  import opened Spending
  import opened Exposure
  import opened Caps
  import opened RunningAlone
  import opened Calls

  lemma AcceptorCount(db: Db, row: Trade)
    ensures var buyer, seller := (row.id, row.buyer) in db.acceptances, (row.id, row.seller) in db.acceptances;
            |Acceptors(db, row)| == (if buyer then 1 else 0) + (if seller && row.seller != row.buyer then 1 else 0)
  {
    var buyer, seller := (row.id, row.buyer) in db.acceptances, (row.id, row.seller) in db.acceptances;
    assert Acceptors(db, row) == (if buyer then {row.buyer} else {}) + (if seller then {row.seller} else {});
  }

  /** What a build, a pass and a create are told from outside. */
  ghost function ForBuild(built: bool): Outside { Outside((attempt: nat) => NotFound, built, None) }

  ghost function ForPass(answer: Answer, termsOk: bool): Outside { Outside((attempt: nat) => answer, termsOk, None) }

  ghost function ForDraft(draft: Option<Trade>): Outside { Outside((attempt: nat) => NotFound, false, draft) }

  /** For steps that take nothing from outside the store. */
  const NOTHING := Env(None, false, 0, 0, 0, NotFound, [])

  class Service {
    const cfg: Config
    const pol: Policy
    const store: Store
    const cluster: Cluster
    var now: Time

    // The call being made: where it began, the steps it has taken, and where it stands.
    ghost var landed: set<(Signature, Transaction)>
    ghost var origin: World
    ghost var first: Frame
    ghost var trace: seq<Env>
    ghost var frame: Frame
    ghost var given: Option<Outside>

    ghost function Here(): World
      reads this, store
    {
      World(store.Snapshot(), now, cluster, landed)
    }

    ghost predicate Valid()
      reads this, store
    {
      hide DbOk, Fact;
      && store.hasher == cfg.hasher && Enforces(cfg, pol)
      && WorldOk(cfg, Here()) && Fact(cfg, Here().db, now, IDLE)
    }

    /** Between two steps of a call. */
    ghost predicate Going()
      reads this, store
    {
      hide DbOk, FrameOk, Fact, Exec, Told;
      && store.hasher == cfg.hasher && Enforces(cfg, pol)
      && WorldOk(cfg, Here()) && FrameOk(cfg, Here(), frame) && Fact(cfg, Here().db, now, frame)
      && Exec(cfg, origin, first, trace) == Some((Here(), frame)) && Told(cfg, given, origin, first, trace)
    }

    constructor (cfg: Config, pol: Policy, store: Store, cluster: Cluster, now: Time)
      requires store.hasher == cfg.hasher && Enforces(cfg, pol) && store.Snapshot() == EMPTY
      ensures Valid() && this.store == store && this.now == now && this.cluster == cluster
      ensures this.cfg == cfg && this.pol == pol
    {
      this.cfg, this.pol, this.store, this.cluster, this.now := cfg, pol, store, cluster, now;
      landed := {};
      new;
      SeqInit(cfg, now, cluster);
      InitOk(cfg, now, cluster);
      hide DbOk, Fact;
    }

    ghost method Enter(cmd: Command, told: Option<Outside>)
      requires Valid()
      modifies `origin, `first, `trace, `frame, `given
      ensures Going() && Here() == old(Here()) && origin == Here() && given == told
      ensures first == frame == Open(Start(cmd))
    {
      origin, first, trace, frame, given := Here(), Open(Start(cmd)), [], Open(Start(cmd)), told;
      FactStarts(cfg, Here().db, now, cmd);
      StartOk(cfg, Here(), cmd);
      hide WorldOk, FrameOk, Fact, Enforces;
    }

    /** Accounts for one store access just made, from the tables it found. */
    ghost method Step(v: World, e: Env)
      requires store.hasher == cfg.hasher && Enforces(cfg, pol)
      requires WorldOk(cfg, v) && FrameOk(cfg, v, frame) && Fact(cfg, v.db, v.now, frame)
      requires Exec(cfg, origin, first, trace) == Some((v, frame)) && Told(cfg, given, origin, first, trace)
      requires Heard(given, frame, e)
      requires !frame.Returned? && Ready(cfg, v.db, v.now, frame, e)
      requires Here() == After(v, Advance(cfg, v.db, v.now, v.cluster, frame, e), Shown(frame, e))
      modifies `trace, `frame
      ensures Going() && Here() == old(Here())
      ensures frame == Advance(cfg, v.db, v.now, v.cluster, old(frame), e).frame
      ensures trace == old(trace) + [e]
    {
      hide WorldOk, FrameOk, Fact, Ready, Advance, Enforces, Later, Told, Heard;
      FrameStep(cfg, v, frame, e);
      FactStep(cfg, v, frame, e);
      ExecStep(cfg, origin, first, trace, v, frame, e);
      ToldStep(cfg, given, origin, first, trace, v, frame, e);
      trace, frame := trace + [e], Advance(cfg, v.db, v.now, v.cluster, frame, e).frame;
    }

    /** The call is over. */
    ghost method Leave(out: Outcome)
      requires Going() && frame == Returned(out) && first.Open? && first.opening.Start?
      ensures Valid() && CalledOn(cfg, given, origin, first.opening.cmd, Here(), out)
      ensures Called(cfg, origin, first.opening.cmd, Here(), out)
    {
      ToldIsCalledOn(cfg, given, origin, first.opening.cmd, trace, Here(), out);
      FactIdles(cfg, Here().db, now, out);
      hide WorldOk, FrameOk, Fact, Enforces, Exec, Told;
    }

    // ---------------------------------------------------------------- shared parts

    /** The first read: the trade a command names. */
    method Load(ghost cmd: Command, id: TradeId, ghost told: Option<Outside>) returns (tr: Option<Trade>)
      requires Valid() && !cmd.Create? && !cmd.SweepAccepted? && !cmd.SweepOpen? && cmd.id == id
      modifies `origin, `first, `trace, `frame, `given
      ensures Going() && Here() == old(Here()) && origin == Here() && first == Open(Start(cmd)) && given == told
      ensures tr.None? ==> frame == Returned(Refused)
      ensures tr.Some? ==> id in store.trades && tr.value == store.trades[id] && tr.value.id == id
                           && frame == Begun(cfg, cmd, tr.value, now)
    {
      hide DbOk, FrameOk, Fact, Enforces, Begun;
      Enter(cmd, told);
      ghost var v := Here();
      if id !in store.trades {
        Step(v, NOTHING);
        return None;
      }
      tr := Some(store.trades[id]);
      Step(v, NOTHING);
      RowHasId(cfg, v, id);
    }

    lemma RowHasId(cfg: Config, w: World, id: TradeId)
      requires WorldOk(cfg, w) && id in w.db.trades
      ensures w.db.trades[id].id == id
    {
      hide AcceptancesOk, RequestsOk, SettlementOk, ChainOk, LedgerOk, ReceiptsOk;
    }

    /** Compare-and-set, event, re-read. A lost race is not an error: the row read back is
        simply the one that won. */
    method ApplyAs(tr: Trade, agent: Actor, to: TradeState, override: Option<EventType>, ghost cont: Cont)
      returns (row: Option<Trade>)
      requires Going() && frame == Apply(tr, agent, to, override, cont, now) && tr.id in store.trades
      modifies this`trace, this`frame, store
      ensures Going() && now == old(now) && landed == old(landed)
      ensures store.trades.Keys == old(store.trades.Keys)
      ensures row.Some? <==> Edge(tr.state, to)
      ensures row.None? ==> frame == Returned(Refused)
      ensures row.Some? ==> row.value == store.trades[tr.id]
                            && frame == AdvanceMove(store.Snapshot(), now, Rereading(tr.id, cont)).frame
    {
      hide WorldOk, FrameOk, Fact, Enforces, Exec, Told, Ready, Advance, Shown, AdvanceMove;
      var kind := EventFor(tr.state, to);
      if kind.None? {
        return None;
      }
      var logged := if override.Some? then override.value else kind.value;
      var changed := Swap(tr, agent, to, logged, cont);
      if changed {
        Log(tr, agent, to, logged, cont);
      }
      var found := Reread(tr.id, cont);
      row := Some(found);
    }

    method Swap(tr: Trade, agent: Actor, to: TradeState, kind: EventType, ghost cont: Cont) returns (changed: bool)
      requires Going() && frame == Move(Applying(tr, agent, to, kind, cont, now))
      modifies this`trace, this`frame, store
      ensures Going() && now == old(now) && landed == old(landed)
      ensures store.trades.Keys == old(store.trades.Keys)
      ensures frame == if changed then Move(Logging(tr, agent, to, kind, cont, now)) else Move(Rereading(tr.id, cont))
    {
      hide WorldOk, FrameOk, Fact, Enforces, Exec, Told, Ready, Advance, Shown;
      ghost var v := Here();
      MoveAdvance(v, frame.moving, NOTHING);
      changed := store.SetTradeState(tr.id, tr.state, to, now);
      Step(v, NOTHING);
    }

    method Log(tr: Trade, agent: Actor, to: TradeState, kind: EventType, ghost cont: Cont)
      requires Going() && frame == Move(Logging(tr, agent, to, kind, cont, now))
      modifies this`trace, this`frame, store
      ensures Going() && now == old(now) && landed == old(landed) && store.trades == old(store.trades)
      ensures frame == Move(Rereading(tr.id, cont))
    {
      hide WorldOk, FrameOk, Fact, Enforces, Exec, Told, Ready, Advance, Shown;
      ghost var v := Here();
      MoveAdvance(v, frame.moving, NOTHING);
      store.AppendTradeEvent(Event(tr.id, agent, kind, Some(tr.state), to, now));
      Step(v, NOTHING);
    }

    method Reread(id: TradeId, ghost cont: Cont) returns (row: Trade)
      requires Going() && frame == Move(Rereading(id, cont)) && id in store.trades
      modifies this`trace, this`frame
      ensures Going() && Here() == old(Here()) && row == store.trades[id]
      ensures frame == AdvanceMove(store.Snapshot(), now, Rereading(id, cont)).frame
    {
      hide WorldOk, FrameOk, Fact, Enforces, Exec, Told, Ready, Advance, Shown;
      ghost var v := Here();
      MoveAdvance(v, frame.moving, NOTHING);
      row := store.trades[id];
      Step(v, NOTHING);
    }

    lemma MoveAdvance(w: World, m: Moving, e: Env)
      ensures Ready(cfg, w.db, w.now, Move(m), e) && Shown(Move(m), e) == {}
      ensures Advance(cfg, w.db, w.now, w.cluster, Move(m), e) == AdvanceMove(w.db, w.now, m)
    {
    }

    // ---------------------------------------------------------------- moves with no request

    method BeginNegotiation(actor: AgentId, id: TradeId) returns (out: Outcome)
      requires Valid()
      modifies this, store
      ensures Valid() && now == old(now)
      ensures Called(cfg, old(Here()), Command.Begin(actor, id), Here(), out)
    {
      hide WorldOk, FrameOk, Fact, Enforces, Exec, Told, Ready, Advance, Shown;
      var tr := Load(Command.Begin(actor, id), id, None);
      out := Refused;
      if tr.Some? && tr.value.Party(actor) {
        if tr.value.state == Negotiating {
          out := OkTrade(tr.value);
        } else if tr.value.state == Proposed {
          out := Moved(tr.value, Some(actor), Negotiating, None);
        }
      }
      Leave(out);
    }

    /** The plain move: the answer is the row read back, whoever wrote it. */
    method Moved(tr: Trade, agent: Actor, to: TradeState, override: Option<EventType>) returns (out: Outcome)
      requires Going() && frame == Apply(tr, agent, to, override, Return, now) && tr.id in store.trades
      modifies this`trace, this`frame, store
      ensures Going() && now == old(now) && landed == old(landed) && frame == Returned(out)
    {
      hide WorldOk, FrameOk, Fact, Enforces, Exec, Told, Ready, Advance, Shown, Apply;
      var row := ApplyAs(tr, agent, to, override, Return);
      out := if row.Some? then OkTrade(row.value) else Refused;
    }

    method Dispute(actor: AgentId, id: TradeId) returns (out: Outcome)
      requires Valid()
      modifies this, store
      ensures Valid() && now == old(now)
      ensures Called(cfg, old(Here()), Command.Dispute(actor, id), Here(), out)
    {
      hide WorldOk, FrameOk, Fact, Enforces, Exec, Told, Ready, Advance, Shown, Apply;
      var tr := Load(Command.Dispute(actor, id), id, None);
      out := Refused;
      if tr.Some? && tr.value.Party(actor) {
        if tr.value.state == Disputed {
          out := OkTrade(tr.value);
        } else {
          out := Moved(tr.value, Some(actor), Disputed, None);
        }
      }
      Leave(out);
    }

    method Resolve(id: TradeId) returns (out: Outcome)
      requires Valid()
      modifies this, store
      ensures Valid() && now == old(now)
      ensures Called(cfg, old(Here()), Command.Resolve(id), Here(), out)
    {
      hide WorldOk, FrameOk, Fact, Enforces, Exec, Told, Ready, Advance, Shown, Apply;
      var tr := Load(Command.Resolve(id), id, None);
      out := Refused;
      if tr.Some? {
        if tr.value.state == Resolved {
          out := OkTrade(tr.value);
        } else if tr.value.state == Disputed {
          out := Moved(tr.value, None, Resolved, Some(EventResolved));
        }
      }
      Leave(out);
    }

    // ---------------------------------------------------------------- accepting

    /** How many of a trade's two parties have accepted. */
    method CountAcceptances(row: Trade) returns (n: nat)
      ensures n == |Acceptors(store.Snapshot(), row)|
    {
      var buyer, seller := (row.id, row.buyer) in store.acceptances, (row.id, row.seller) in store.acceptances;
      n := (if buyer then 1 else 0) + (if seller && row.seller != row.buyer then 1 else 0);
      AcceptorCount(store.Snapshot(), row);
    }

    method Accept(actor: AgentId, id: TradeId) returns (out: Outcome)
      requires Valid()
      modifies this, store
      ensures Valid() && now == old(now)
      ensures Called(cfg, old(Here()), Command.Accept(actor, id), Here(), out)
    {
      hide WorldOk, FrameOk, Fact, Enforces, Exec, Told, Ready, Advance, Shown;
      var tr := Load(Command.Accept(actor, id), id, None);
      out := Refused;
      if tr.Some? && tr.value.Party(actor) {
        if tr.value.state == Accepted || tr.value.state == Recorded {
          out := OkTrade(tr.value);
        } else if tr.value.state == Negotiating {
          var inserted := Agreed(tr.value, actor);
          if inserted {
            out := Joined(id, actor);
          } else {
            out := Again(id);
          }
        }
      }
      Leave(out);
    }

    method Agreed(tr: Trade, actor: AgentId) returns (inserted: bool)
      requires Going() && frame == Agree(AcceptInsert(tr, actor, now))
      modifies this`trace, this`frame, store
      ensures Going() && now == old(now) && landed == old(landed) && store.trades == old(store.trades)
      ensures frame == Agree(if inserted then AcceptRow(tr.id, actor) else AcceptReturn(tr.id))
    {
      hide WorldOk, FrameOk, Fact, Enforces, Exec, Told, Ready, Advance, Shown;
      ghost var v := Here();
      AgreeAdvance(v, frame.agreeing, NOTHING);
      inserted := store.AddTradeAcceptance(tr.id, actor, now);
      Step(v, NOTHING);
    }

    method Again(id: TradeId) returns (out: Outcome)
      requires Going() && frame == Agree(AcceptReturn(id)) && id in store.trades
      modifies this`trace, this`frame
      ensures Going() && Here() == old(Here()) && frame == Returned(out)
    {
      hide WorldOk, FrameOk, Fact, Enforces, Exec, Told, Ready, Advance, Shown;
      AgreeAdvance(Here(), frame.agreeing, NOTHING);
      out := OkTrade(store.trades[id]);
      Step(Here(), NOTHING);
    }

    /** The second acceptance moves the trade, from the row as it now stands. */
    method Joined(id: TradeId, actor: AgentId) returns (out: Outcome)
      requires Going() && frame == Agree(AcceptRow(id, actor)) && id in store.trades && store.trades[id].id == id
      modifies this`trace, this`frame, store
      ensures Going() && now == old(now) && landed == old(landed) && frame == Returned(out)
    {
      hide WorldOk, FrameOk, Fact, Enforces, Exec, Told, Ready, Advance, Shown, Apply, Acceptors;
      AgreeAdvance(Here(), frame.agreeing, NOTHING);
      var row := store.trades[id];
      Step(Here(), NOTHING);
      var n := CountAcceptances(row);
      AgreeAdvance(Here(), frame.agreeing, NOTHING);
      Step(Here(), NOTHING);
      if n < 2 {
        return OkTrade(row);
      }
      out := Moved(row, Some(actor), Accepted, None);
    }

    lemma AgreeAdvance(w: World, a: Agreeing, e: Env)
      ensures Ready(cfg, w.db, w.now, Agree(a), e) && Shown(Agree(a), e) == {}
      ensures Advance(cfg, w.db, w.now, w.cluster, Agree(a), e) == AdvanceAgree(w.db, w.now, a)
    {
    }

    // ---------------------------------------------------------------- leaving accepted

    method LiveSettlement(id: TradeId) returns (live: bool)
      ensures live == HasLiveRequest(store.Snapshot(), id, now)
    {
      live := false;
      var todo := store.requests.Keys;
      while todo != {}
        invariant todo <= store.requests.Keys
        invariant live <==> exists r :: r in store.requests && r !in todo
                                        && store.requests[r].trade == id && store.requests[r].Live(now)
        decreases todo
      {
        var r :| r in todo;
        if store.requests[r].trade == id && store.requests[r].Live(now) {
          live := true;
        }
        todo := todo - {r};
      }
    }

    method Cancel(actor: AgentId, id: TradeId) returns (out: Outcome)
      requires Valid()
      modifies this, store
      ensures Valid() && now == old(now)
      ensures Called(cfg, old(Here()), Command.Cancel(actor, id), Here(), out)
    {
      hide WorldOk, FrameOk, Fact, Enforces, Exec, Told, Ready, Advance, Shown, Apply, PastDeadline, HasLiveRequest;
      var tr := Load(Command.Cancel(actor, id), id, None);
      out := Refused;
      if tr.Some? && tr.value.Party(actor) {
        if tr.value.state == Cancelled {
          out := OkTrade(tr.value);
        } else {
          var live := LiveSettlement(id);
          LeaveAdvance(Here(), frame.leaving, NOTHING);
          Step(Here(), NOTHING);
          if !(cfg.settlement && live) {
            if tr.value.state == Accepted {
              out := CancelAccepted(tr.value, actor);
            } else {
              out := Moved(tr.value, Some(actor), Cancelled, None);
            }
          }
        }
      }
      Leave(out);
    }

    /** Acceptance binds until its deadline. */
    method CancelAccepted(tr: Trade, actor: AgentId) returns (out: Outcome)
      requires Going() && frame == Frame.Leave(CancelDeadline(tr, actor)) && tr.id in store.trades
      modifies this`trace, this`frame, store
      ensures Going() && now == old(now) && landed == old(landed) && frame == Returned(out)
    {
      hide WorldOk, FrameOk, Fact, Enforces, Exec, Told, Ready, Advance, Shown, Apply, FirstAcceptance;
      var past := PastDeadline(cfg, store.Snapshot(), tr, now);
      LeaveAdvance(Here(), frame.leaving, NOTHING);
      Step(Here(), NOTHING);
      out := Refused;
      if past {
        out := Moved(tr, Some(actor), Cancelled, None);
      }
    }

    lemma LeaveAdvance(w: World, l: Leaving, e: Env)
      requires LeaveReady(w.db, l, e)
      ensures Ready(cfg, w.db, w.now, Frame.Leave(l), e) && Shown(Frame.Leave(l), e) == {}
      ensures Advance(cfg, w.db, w.now, w.cluster, Frame.Leave(l), e) == AdvanceLeave(cfg, w.db, w.now, w.cluster, l, e)
    {
    }

    /** The spending check as the protocol's admission test. */
    method Checked(tr: Trade, exclude: Option<TradeId>) returns (ok: bool)
      requires Enforces(cfg, pol)
      ensures ok <==> cfg.admits(store.Snapshot(), tr, exclude, now)
    {
      hide IsCommittedSpend, Within, Admits;
      var rows := CommittedSpendSince(store, tr.buyer, now - pol.window, exclude);
      var verdict := CheckSpend(pol, tr.buyer, SpendOf(tr), rows);
      CheckDecidesAdmission(pol, store.Snapshot(), tr, exclude, now, rows);
      ok := verdict.Admitted?;
    }

    lemma Capped()
      requires Enforces(cfg, pol)
      ensures cfg.capped
    {
    }

    method Record(actor: AgentId, id: TradeId) returns (out: Outcome)
      requires Valid()
      modifies this, store
      ensures Valid() && now == old(now)
      ensures Called(cfg, old(Here()), Command.Record(actor, id), Here(), out)
    {
      hide WorldOk, FrameOk, Fact, Enforces, Exec, Told, Ready, Advance, Shown, Apply, AdvanceStamp;
      var tr := Load(Command.Record(actor, id), id, None);
      out := Refused;
      if tr.Some? && tr.value.Party(actor) {
        if tr.value.state == Recorded {
          out := Repeat(tr.value);
        } else {
          Capped();
          var ok := Checked(tr.value, Some(id));
          LeaveAdvance(Here(), frame.leaving, NOTHING);
          Step(Here(), NOTHING);
          if ok {
            out := Commit(tr.value, actor);
          }
        }
      }
      Leave(out);
    }

    /** A call repeated on a delivered trade answers with the receipt it already has. */
    method Repeat(tr: Trade) returns (out: Outcome)
      requires Going() && frame == Open(Repeating(tr))
      modifies this`trace, this`frame
      ensures Going() && now == old(now) && landed == old(landed) && frame == Returned(out)
      ensures out == if tr.id in store.receipts then OkRepeat(tr, store.receipts[tr.id]) else Refused
    {
      hide WorldOk, FrameOk, Fact, Enforces, Exec, Told, Ready, Advance, Shown;
      out := if tr.id in store.receipts then OkRepeat(tr, store.receipts[tr.id]) else Refused;
      OpenAdvance(Here(), frame.opening, NOTHING);
      Step(Here(), NOTHING);
    }

    /** Commit off chain and issue the receipt for the row read back. */
    method Commit(tr: Trade, actor: AgentId) returns (out: Outcome)
      requires Going() && tr.id in store.trades
      requires frame == Apply(tr, Some(actor), Recorded, None, ThenLedger(None), now)
      modifies this`trace, this`frame, store
      ensures Going() && now == old(now) && landed == old(landed) && frame == Returned(out)
    {
      hide WorldOk, FrameOk, Fact, Enforces, Exec, Told, Ready, Advance, Shown, Apply;
      var row := ApplyAs(tr, Some(actor), Recorded, None, ThenLedger(None));
      out := Refused;
      if row.Some? {
        out := LedgerRecord(row.value, None);
      }
    }

    // ---------------------------------------------------------------- receipts

    lemma StampAdvance(w: World, p: Stamping, e: Env)
      ensures Ready(cfg, w.db, w.now, Stamp(p), e) && Shown(Stamp(p), e) == {}
      ensures Advance(cfg, w.db, w.now, w.cluster, Stamp(p), e) == AdvanceStamp(cfg, w.db, w.now, w.cluster, p)
    {
    }

    /** Optimistic append with a bounded number of attempts, then the receipt. */
    method LedgerRecord(tr: Trade, proof: Option<Signature>) returns (out: Outcome)
      requires Going() && frame == Stamp(ReceiptCheck(tr, proof))
      modifies this`trace, this`frame, store
      ensures Going() && now == old(now) && landed == old(landed) && frame == Returned(out)
    {
      hide WorldOk, FrameOk, Fact, Enforces, Exec, Told, Ready, Advance, Shown, HeadHash, AppendEntry, AppendOutcome;
      StampAdvance(Here(), frame.stamping, NOTHING);
      if tr.state != Recorded && tr.state != Settled {
        Step(Here(), NOTHING);
        return Refused;
      }
      if tr.id in store.receipts {
        Step(Here(), NOTHING);
        return Refused;
      }
      var record := TradeRecord(tr, now);
      ghost var start := |store.ledger|;
      Step(Here(), NOTHING);
      var attempt := 0;
      while attempt < APPEND_ATTEMPTS
        invariant Going() && now == old(now) && landed == old(landed)
        invariant 0 <= attempt < APPEND_ATTEMPTS ==> frame == Stamp(Heading(record, proof, attempt, start))
        invariant attempt == APPEND_ATTEMPTS ==> frame == Returned(Refused)
        invariant 0 <= attempt <= APPEND_ATTEMPTS
      {
        var result := Attempt(record, proof, attempt, start);
        match result
        case Appended(entry) =>
          out := SaveFor(record, proof, entry);
          return;
        case Duplicate => return Refused;
        case Stale =>
        attempt := attempt + 1;
      }
      out := Refused;
    }

    /** One attempt: read the head, then append behind it. */
    method Attempt(record: TradeRecord, proof: Option<Signature>, ghost attempt: nat, ghost start: nat)
      returns (result: AppendResult)
      requires Going() && frame == Stamp(Heading(record, proof, attempt, start))
      modifies this`trace, this`frame, store
      ensures Going() && now == old(now) && landed == old(landed)
      ensures frame == match result
                       case Appended(entry) => Stamp(Saving(record, proof, entry))
                       case Duplicate => Returned(Refused)
                       case Stale => if attempt + 1 >= APPEND_ATTEMPTS then Returned(Refused)
                                     else Stamp(Heading(record, proof, attempt + 1, start))
    {
      hide WorldOk, FrameOk, Fact, Enforces, Exec, Told, Ready, Advance, Shown, AppendEntry, AppendOutcome;
      StampAdvance(Here(), frame.stamping, NOTHING);
      var prev := if |store.ledger| == 0 then cfg.hasher.genesis else store.ledger[|store.ledger| - 1].hash;
      Step(Here(), NOTHING);
      ghost var v := Here();
      StampAdvance(v, frame.stamping, NOTHING);
      result := store.AppendLedgerEntry(record, prev);
      Step(v, NOTHING);
    }

    method SaveFor(record: TradeRecord, proof: Option<Signature>, entry: Entry) returns (out: Outcome)
      requires Going() && frame == Stamp(Saving(record, proof, entry))
      modifies this`trace, this`frame, store
      ensures Going() && now == old(now) && landed == old(landed) && frame == Returned(out)
    {
      hide WorldOk, FrameOk, Fact, Enforces, Exec, Told, Ready, Advance, Shown;
      ghost var v := Here();
      StampAdvance(v, frame.stamping, NOTHING);
      var receipt := ReceiptFor(record, proof, entry, cluster);
      var ok := store.SaveReceipt(receipt);
      Step(v, NOTHING);
      out := if ok then OkReceipt(receipt) else Refused;
    }

    // ---------------------------------------------------------------- building a settlement

    /** What the builder hands back: a fresh identifier and the blockhash expiry. */
    function Built(freshId: RequestId, expiresAt: Time): Env { Env(None, true, freshId, expiresAt, 0, NotFound, []) }

    method BuildSettlement(actor: AgentId, id: TradeId, built: bool, freshId: RequestId, expiresAt: Time)
      returns (out: Outcome)
      requires Valid() && freshId !in store.requests
      modifies this, store
      ensures Valid() && now == old(now)
      ensures CalledOn(cfg, Some(ForBuild(built)), old(Here()), Command.Build(actor, id), Here(), out)
    {
      hide WorldOk, FrameOk, Fact, Enforces, Exec, Told, Ready, Advance, Shown, Apply;
      var tr := Load(Command.Build(actor, id), id, Some(ForBuild(built)));
      out := Refused;
      if tr.Some? && tr.value.Party(actor) && cfg.settlement && tr.value.buyer == actor && tr.value.mode == Onchain
         && (tr.value.state == Accepted || tr.value.state == SettlementPending)
      {
        Capped();
        var ok := Checked(tr.value, Some(id));
        var e := NOTHING.(ok := built);
        LeaveAdvance(Here(), frame.leaving, e);
        Step(Here(), e);
        if ok && built {
          out := Issue(tr.value, actor, freshId, expiresAt);
        }
      }
      Leave(out);
    }

    /** A new request supersedes the trade's others before the trade moves. */
    method Issue(tr: Trade, actor: AgentId, freshId: RequestId, expiresAt: Time) returns (out: Outcome)
      requires Going() && frame == Frame.Leave(Building(tr, actor, now))
      requires freshId !in store.requests && tr.id in store.trades
      modifies this`trace, this`frame, store
      ensures Going() && now == old(now) && landed == old(landed) && frame == Returned(out)
    {
      hide WorldOk, FrameOk, Fact, Enforces, Exec, Told, Ready, Advance, Shown, Apply, CreateRequest;
      ghost var v := Here();
      var e := Built(freshId, expiresAt);
      LeaveAdvance(v, frame.leaving, e);
      var request := NewRequest(tr, cluster, now, e);
      store.CreateSettlementRequest(request);
      CreateKeepsTrades(v.db, request);
      Step(v, e);
      if tr.state == Accepted {
        var row := ApplyAs(tr, Some(actor), SettlementPending, None, ThenRequest(request));
        out := if row.Some? then OkRequest(request) else Refused;
      } else {
        out := OkRequest(request);
      }
    }

    lemma CreateKeepsTrades(db: Db, r: Request)
      requires r.id !in db.requests
      ensures CreateRequest(db, r).trades == db.trades
    {
    }

    // ---------------------------------------------------------------- which request

    /** The newest of some listed requests. */
    method Newest(list: map<RequestId, Request>, among: set<RequestId>) returns (id: RequestId)
      requires among != {} && among <= list.Keys && forall r :: r in list ==> list[r].id == r
      ensures id in among && forall r :: r in among ==> Newer(list[id], list[r])
    {
      id :| id in among;
      var todo := among - {id};
      while todo != {}
        invariant todo <= among && id in among
        invariant forall r :: r in among && r !in todo ==> Newer(list[id], list[r])
        decreases todo
      {
        var r :| r in todo;
        if Newer(list[r], list[id]) {
          id := r;
        }
        todo := todo - {r};
      }
    }

    /** The issued request, or else the newest. */
    method CurrentRequest(list: map<RequestId, Request>) returns (id: RequestId)
      requires list != map[] && forall r :: r in list ==> list[r].id == r
      ensures IsCurrent(list, id)
    {
      var issued := set r | r in list && list[r].status == Issued;
      assert list.Keys != {} by { var r :| r in list; }
      id := Newest(list, if issued != {} then issued else list.Keys);
      if issued == {} {
        assert forall r :: r in list ==> r !in issued;
      }
    }

    lemma ListIds(cfg: Config, w: World, id: TradeId)
      requires WorldOk(cfg, w)
      ensures forall r :: r in RequestsOf(w.db, id) ==> RequestsOf(w.db, id)[r].id == r
    {
      hide TradesOk, AcceptancesOk, SettlementOk, ChainOk, LedgerOk, ReceiptsOk, OneIssued;
    }

    // ---------------------------------------------------------------- confirming a settlement

    lemma SettleAdvance(w: World, s: Settling, e: Env)
      requires SettleReady(w.db, s, e)
      ensures Ready(cfg, w.db, w.now, Settle(s), e)
      ensures !s.Fetching? && !s.Refetching? ==> Shown(Settle(s), e) == {}
      ensures Advance(cfg, w.db, w.now, w.cluster, Settle(s), e) == AdvanceSettle(cfg, w.db, w.now, w.cluster, s, e)
    {
    }

    method ConfirmSettlement(actor: AgentId, id: TradeId, sig: Signature, chain: nat -> Answer, termsOk: bool)
      returns (out: Outcome)
      requires Valid()
      modifies this, store
      ensures Valid() && now == old(now)
      ensures CalledOn(cfg, Some(Outside(chain, termsOk, None)), old(Here()), Command.Confirm(actor, id, sig), Here(), out)
    {
      hide WorldOk, FrameOk, Fact, Enforces, Exec, Told, Ready, Advance, Shown;
      var tr := Load(Command.Confirm(actor, id, sig), id, Some(Outside(chain, termsOk, None)));
      out := Refused;
      if tr.Some? && tr.value.Party(actor) && cfg.settlement && tr.value.mode == Onchain {
        if tr.value.state == Settled || tr.value.state == Recorded {
          out := Repeat(tr.value);
        } else if tr.value.state == SettlementPending {
          var ready, list, cur := Submit(tr.value, sig);
          if ready {
            out := Await(tr.value, sig, list, cur, chain, termsOk);
          }
        }
      }
      Leave(out);
    }

    /** Finds the request, checks its cluster, and records the signature before looking. */
    method Submit(tr: Trade, sig: Signature) returns (ready: bool, list: map<RequestId, Request>, cur: RequestId)
      requires Going() && frame == Settle(ConfirmList(tr, sig)) && tr.id in store.trades
      modifies this`trace, this`frame, store
      ensures Going() && now == old(now) && landed == old(landed) && store.trades == old(store.trades)
      ensures frame == if ready then Settle(Fetching(tr, sig, list, Some(cur), 1)) else Returned(Refused)
    {
      hide WorldOk, FrameOk, Fact, Enforces, Exec, Told, Ready, Advance, Shown, IsCurrent;
      ghost var v := Here();
      PendingIsListed(v, tr);
      ListIds(cfg, v, tr.id);
      SettleAdvance(v, frame.settling, NOTHING);
      list := RequestsOf(store.Snapshot(), tr.id);
      Step(v, NOTHING);
      cur := CurrentRequest(list);
      var e := NOTHING.(pick := cur);
      SettleAdvance(Here(), frame.settling, e);
      Step(Here(), e);
      ready := ClusterOk(list, cur, cluster);
      if ready {
        v := Here();
        SettleAdvance(v, frame.settling, NOTHING);
        ready := store.SetSettlementSignature(cur, sig);
        SignKeepsTrades(v.db, cur, sig);
        Step(v, NOTHING);
      }
    }

    lemma PendingIsListed(w: World, tr: Trade)
      requires exists sig :: FrameOk(cfg, w, Settle(ConfirmList(tr, sig)))
      ensures RequestsOf(w.db, tr.id) != map[]
    {
      var sig :| FrameOk(cfg, w, Settle(ConfirmList(tr, sig)));
      HasRequestIsListed(w.db, tr.id);
    }

    lemma SignKeepsTrades(db: Db, cur: RequestId, sig: Signature)
      ensures SignRequest(db, cur, sig).trades == db.trades
      ensures ConfirmRequest(db, cur, sig).trades == db.trades
    {
    }

    /** Polls with a bounded number of attempts; only "not found" is retried. */
    method Await(tr: Trade, sig: Signature, list: map<RequestId, Request>, cur: RequestId, chain: nat -> Answer, termsOk: bool)
      returns (out: Outcome)
      requires Going() && frame == Settle(Fetching(tr, sig, list, Some(cur), 1)) && tr.id in store.trades
      requires given == Some(Outside(chain, termsOk, None))
      modifies this`trace, this`frame, this`landed, store
      ensures Going() && now == old(now) && frame == Returned(out)
    {
      hide WorldOk, FrameOk, Fact, Enforces, Exec, Told, Ready, Advance, Shown, Judge;
      var attempt, limit := 1, Attempts(cfg);
      while true
        invariant Going() && now == old(now) && store.Snapshot() == old(store.Snapshot())
        invariant 1 <= attempt <= limit && frame == Settle(Fetching(tr, sig, list, Some(cur), attempt))
        decreases limit - attempt
      {
        var answer := chain(attempt);
        var e := NOTHING.(answer := answer, ok := termsOk);
        Fetch(e);
        match answer
        case Unreachable => return Refused;
        case Landed(tx, failed) =>
          out := SettleFetched(tr, sig, list, cur, tx, failed, termsOk);
          return;
        case NotFound =>
          if attempt >= limit {
            return Refused;
          }
          attempt := attempt + 1;
      }
    }

    /** One look at the chain. */
    ghost method Fetch(e: Env)
      requires Going() && frame.Settle? && (frame.settling.Fetching? || frame.settling.Refetching?) && Heard(given, frame, e)
      modifies this`trace, this`frame, this`landed
      ensures Going() && store.Snapshot() == old(store.Snapshot())
      ensures frame == AdvanceSettle(cfg, Here().db, now, cluster, old(frame).settling, e).frame
    {
      hide WorldOk, FrameOk, Fact, Enforces, Exec, Told, Ready, Advance, Judge;
      var v, s := Here(), frame.settling;
      SettleAdvance(v, s, e);
      landed := landed + Shown(frame, e);
      Step(v, e);
    }

    /** The one verdict confirm and reconcile share. */
    method SettleFetched(tr: Trade, sig: Signature, list: map<RequestId, Request>, cur: RequestId,
                         tx: Transaction, failed: bool, termsOk: bool)
      returns (out: Outcome)
      requires Going() && frame == Judge(cfg, tr, sig, list, Some(cur), cluster, tx, failed, termsOk, now)
      requires tr.id in store.trades
      modifies this`trace, this`frame, store
      ensures Going() && now == old(now) && landed == old(landed) && frame == Returned(out)
    {
      hide WorldOk, FrameOk, Fact, Enforces, Exec, Told, Ready, Advance, Shown, Apply, ClusterOk, AdvanceSettle;
      out := Refused;
      if ClusterOk(list, cur, cluster) {
        if failed {
          Withdraw(tr);
        } else if termsOk {
          if cfg.verify(TermsOf(tr), tx) {
            out := Finish(tr, sig, list, cur);
          } else {
            var row := ApplyAs(tr, Some(tr.buyer), Disputed, None, Refuse);
          }
        }
      }
    }

    method Withdraw(tr: Trade)
      requires Going() && frame == Settle(Withdrawing(tr))
      modifies this`trace, this`frame, store
      ensures Going() && now == old(now) && landed == old(landed) && frame == Returned(Refused)
    {
      hide WorldOk, FrameOk, Fact, Enforces, Exec, Told, Ready, Advance, Shown;
      ghost var v := Here();
      SettleAdvance(v, frame.settling, NOTHING);
      store.ExpireSettlementRequests(tr.id);
      Step(v, NOTHING);
    }

    /** Confirm the request, expire the ones it superseded, settle, and issue the receipt. */
    method Finish(tr: Trade, sig: Signature, list: map<RequestId, Request>, cur: RequestId) returns (out: Outcome)
      requires Going() && frame == Settle(Confirming(tr, sig, list, cur)) && tr.id in store.trades
      modifies this`trace, this`frame, store
      ensures Going() && now == old(now) && landed == old(landed) && frame == Returned(out)
    {
      hide WorldOk, FrameOk, Fact, Enforces, Exec, Told, Ready, Advance, Shown, Apply;
      var ok := ConfirmRequests(tr, sig, list, cur);
      if !ok {
        return Refused;
      }
      var row := ApplyAs(tr, Some(tr.buyer), Settled, None, ThenLedger(Some(sig)));
      if row.None? {
        return Refused;
      }
      out := LedgerRecord(row.value, Some(sig));
    }

    method ConfirmRequests(tr: Trade, sig: Signature, list: map<RequestId, Request>, cur: RequestId) returns (ok: bool)
      requires Going() && frame == Settle(Confirming(tr, sig, list, cur))
      modifies this`trace, this`frame, store
      ensures Going() && now == old(now) && landed == old(landed) && store.trades == old(store.trades)
      ensures frame == if ok then Apply(tr, Some(tr.buyer), Settled, None, ThenLedger(Some(sig)), now) else Returned(Refused)
    {
      hide WorldOk, FrameOk, Fact, Enforces, Exec, Told, Ready, Advance, Shown, Apply;
      ghost var v := Here();
      SettleAdvance(v, frame.settling, NOTHING);
      ok := store.ConfirmSettlementRequest(cur, sig);
      SignKeepsTrades(v.db, cur, sig);
      Step(v, NOTHING);
      if ok && cur in list && |list| > 1 {
        v := Here();
        SettleAdvance(v, frame.settling, NOTHING);
        store.ExpireSettlementRequests(tr.id);
        Step(v, NOTHING);
      }
    }

    // ---------------------------------------------------------------- reconciling

    /** The newest request that carries a signature, or the newest of all when none does. */
    method LatestRequest(list: map<RequestId, Request>) returns (id: RequestId)
      requires list != map[] && forall r :: r in list ==> list[r].id == r
      ensures if AnySigned(list) then IsLatestSigned(list, id) else IsLatest(list, id)
    {
      var signed := set r | r in list && list[r].signature.Some?;
      assert AnySigned(list) <==> signed != {} by {
        if AnySigned(list) { var r :| r in list && list[r].signature.Some?; assert r in signed; }
        if signed != {} { var r :| r in signed; }
      }
      assert list.Keys != {} by { var r :| r in list; }
      id := Newest(list, if signed != {} then signed else list.Keys);
    }

    method ReconcileTrade(id: TradeId, answer: Answer, termsOk: bool) returns (out: Outcome)
      requires Valid()
      modifies this, store
      ensures Valid() && now == old(now)
      ensures CalledOn(cfg, Some(ForPass(answer, termsOk)), old(Here()), Command.Reconcile(id), Here(), out)
    {
      hide WorldOk, FrameOk, Fact, Enforces, Exec, Told, Ready, Advance, Shown;
      var tr := Load(Command.Reconcile(id), id, Some(ForPass(answer, termsOk)));
      out := Refused;
      if tr.Some? && cfg.settlement && tr.value.state == SettlementPending && tr.value.mode == Onchain {
        out := ReconcilePending(tr.value, answer, termsOk);
      }
      Leave(out);
    }

    lemma ReconciledIsListed(w: World, tr: Trade)
      requires FrameOk(cfg, w, Settle(ReconcileList(tr)))
      ensures RequestsOf(w.db, tr.id) != map[]
    {
      HasRequestIsListed(w.db, tr.id);
    }

    method ReconcilePending(tr: Trade, answer: Answer, termsOk: bool) returns (out: Outcome)
      requires Going() && frame == Settle(ReconcileList(tr)) && tr.id in store.trades && given == Some(ForPass(answer, termsOk))
      modifies this`trace, this`frame, this`landed, store
      ensures Going() && now == old(now) && frame == Returned(out)
    {
      hide WorldOk, FrameOk, Fact, Enforces, Exec, Told, Ready, Advance, Shown, Judge, IsLatest, IsLatestSigned, AnySigned, ClusterOk;
      ghost var v := Here();
      ReconciledIsListed(v, tr);
      ListIds(cfg, v, tr.id);
      var list := RequestsOf(store.Snapshot(), tr.id);
      var last := LatestRequest(list);
      PickedRow(list, last);
      var e := NOTHING.(pick := last);
      SettleAdvance(v, frame.settling, e);
      Step(v, e);
      out := Refused;
      if !AnySigned(list) {
        if list[last].status == Issued && list[last].expiresAt <= now {
          out := Lapse(tr);
        }
      } else if !ClusterOk(list, last, cluster) {
        Withdraw(tr);
      } else {
        out := Refetch(tr, list, last, answer, termsOk);
      }
    }

    lemma PickedRow(list: map<RequestId, Request>, id: RequestId)
      requires if AnySigned(list) then IsLatestSigned(list, id) else IsLatest(list, id)
      ensures id in list && (AnySigned(list) ==> list[id].signature.Some?)
    {
    }

    /** One look at the chain for the recorded signature; the next pass is the retry. */
    method Refetch(tr: Trade, list: map<RequestId, Request>, cur: RequestId, answer: Answer, termsOk: bool) returns (out: Outcome)
      requires cur in list && list[cur].signature.Some? && tr.id in store.trades
      requires Going() && frame == Settle(Refetching(tr, list[cur].signature.value, list, cur, now))
      requires given == Some(ForPass(answer, termsOk))
      modifies this`trace, this`frame, this`landed, store
      ensures Going() && now == old(now) && frame == Returned(out)
    {
      hide WorldOk, FrameOk, Fact, Enforces, Exec, Told, Ready, Advance, Shown, Judge;
      var sig := list[cur].signature.value;
      Fetch(NOTHING.(answer := answer, ok := termsOk));
      out := Refused;
      match answer
      case Unreachable =>
      case Landed(tx, failed) => out := SettleFetched(tr, sig, list, cur, tx, failed, termsOk);
      case NotFound =>
        if list[cur].status == Issued && list[cur].expiresAt <= now {
          out := Lapse(tr);
        }
    }

    /** The blockhash ran out: expire the requests and cancel. */
    method Lapse(tr: Trade) returns (out: Outcome)
      requires Going() && frame == Settle(Lapsing(tr)) && tr.id in store.trades
      modifies this`trace, this`frame, store
      ensures Going() && now == old(now) && landed == old(landed) && frame == Returned(out)
    {
      hide WorldOk, FrameOk, Fact, Enforces, Exec, Told, Ready, Advance, Shown, Apply;
      ghost var v := Here();
      SettleAdvance(v, frame.settling, NOTHING);
      store.ExpireSettlementRequests(tr.id);
      Step(v, NOTHING);
      out := Moved(tr, None, Cancelled, Some(EventExpired));
    }

    // ---------------------------------------------------------------- sweeping

    method OldestOf(db: Db, among: set<TradeId>) returns (t: TradeId)
      requires among != {} && among <= db.trades.Keys
      ensures t in among && forall u :: u in among ==> db.trades[t].updatedAt <= db.trades[u].updatedAt
    {
      t :| t in among;
      var todo := among - {t};
      while todo != {}
        invariant todo <= among && t in among
        invariant forall u :: u in among && u !in todo ==> db.trades[t].updatedAt <= db.trades[u].updatedAt
        decreases todo
      {
        var u :| u in todo;
        if db.trades[u].updatedAt < db.trades[t].updatedAt {
          t := u;
        }
        todo := todo - {u};
      }
    }

    /** A sweep's query: matching rows, least recently updated first, bounded. */
    method OldestRows(db: Db, limit: nat, row: TradeId -> bool) returns (batch: seq<TradeId>)
      ensures IsBatch(db, batch, limit, row)
    {
      batch := [];
      var todo := set t | t in db.trades && row(t);
      while |batch| < Bound(limit) && todo != {}
        invariant |batch| <= Bound(limit)
        invariant forall t :: t in todo ==> t in db.trades && row(t)
        invariant forall t :: t in batch ==> t in db.trades && row(t)
        invariant forall t :: t in db.trades && row(t) && t !in batch ==> t in todo
        invariant forall t :: t in todo ==> t !in batch
        invariant forall i, j :: 0 <= i < j < |batch| ==> batch[i] != batch[j]
        invariant forall t, u :: t in batch && u in todo ==> db.trades[t].updatedAt <= db.trades[u].updatedAt
        decreases todo
      {
        var t := OldestOf(db, todo);
        batch := batch + [t];
        todo := todo - {t};
      }
    }

    lemma SweepAdvance(w: World, s: Sweeping, e: Env)
      ensures Ready(cfg, w.db, w.now, Sweep(s), e) && Shown(Sweep(s), e) == {}
      ensures Advance(cfg, w.db, w.now, w.cluster, Sweep(s), e) == AdvanceSweep(cfg, w.db, w.now, s)
    {
    }

    lemma OpenAdvance(w: World, o: Opening, e: Env)
      requires OpenReady(cfg, w.db, w.now, o, e)
      ensures Ready(cfg, w.db, w.now, Open(o), e) && Shown(Open(o), e) == {}
      ensures Advance(cfg, w.db, w.now, w.cluster, Open(o), e) == AdvanceOpen(cfg, w.db, w.now, o, e)
    {
    }

    method ExpireAccepted(limit: nat) returns (out: Outcome)
      requires Valid()
      modifies this, store
      ensures Valid() && now == old(now)
      ensures Called(cfg, old(Here()), Command.SweepAccepted(limit), Here(), out)
    {
      hide WorldOk, FrameOk, Fact, Enforces, Exec, Told, Ready, Advance, Shown, IsBatch, AcceptedRow;
      Enter(SweepAccepted(limit), None);
      var db, deadline := store.Snapshot(), now;
      var batch := OldestRows(db, limit, (id: TradeId) => AcceptedRow(db, id, deadline));
      var e := NOTHING.(batch := batch);
      SameBatch(db, batch, limit, (id: TradeId) => AcceptedRow(db, id, deadline), Start(SweepAccepted(limit)));
      OpenAdvance(Here(), frame.opening, e);
      Step(Here(), e);
      if cfg.acceptTtl > 0 {
        PassOver(batch, None);
      }
      out := Swept;
      Leave(out);
    }

    method ExpireOpen(limit: nat) returns (out: Outcome)
      requires Valid()
      modifies this, store
      ensures Valid() && now == old(now)
      ensures Called(cfg, old(Here()), Command.SweepOpen(limit), Here(), out)
    {
      hide WorldOk, FrameOk, Fact, Enforces, Exec, Told, Ready, Advance, Shown, IsBatch, OpenRow;
      Enter(SweepOpen(limit), None);
      var db, cutoff := store.Snapshot(), now - cfg.openTtl;
      var batch := OldestRows(db, limit, (id: TradeId) => OpenRow(db, id, cutoff));
      var e := NOTHING.(batch := batch);
      SameBatch(db, batch, limit, (id: TradeId) => OpenRow(db, id, cutoff), Start(SweepOpen(limit)));
      OpenAdvance(Here(), frame.opening, e);
      Step(Here(), e);
      if cfg.openTtl > 0 {
        PassOver(batch, Some(cutoff));
      }
      out := Swept;
      Leave(out);
    }

    lemma SameBatch(db: Db, batch: seq<TradeId>, limit: nat, row: TradeId -> bool, o: Opening)
      requires IsBatch(db, batch, limit, row) && (o == Start(SweepAccepted(limit)) || o == Start(SweepOpen(limit)))
      requires forall id :: row(id) == (if o.cmd.SweepAccepted? then AcceptedRow(db, id, now) else OpenRow(db, id, now - cfg.openTtl))
      ensures OpenReady(cfg, db, now, o, NOTHING.(batch := batch))
      ensures forall i :: 0 <= i < |batch| ==> batch[i] in db.trades
    {
      hide AcceptedRow, OpenRow;
    }

    /** Loads the batch row by row, then expires it row by row, re-checking each. */
    method PassOver(ids: seq<TradeId>, cutoff: Option<Time>)
      requires Going() && frame == Sweep(Loading(ids, [], cutoff))
      requires forall i :: 0 <= i < |ids| ==> ids[i] in store.trades
      modifies this`trace, this`frame, store
      ensures Going() && now == old(now) && landed == old(landed) && frame == Returned(Swept)
    {
      hide WorldOk, FrameOk, Fact, Enforces, Exec, Told, Ready, Advance, Shown, Apply, Expirable;
      var loaded := LoadRows(ids, cutoff);
      for i := 0 to |loaded|
        invariant Going() && now == old(now) && landed == old(landed)
        invariant frame == Sweep(Expiring(loaded[i..], cutoff))
        invariant forall k :: 0 <= k < |loaded| ==> loaded[k].id in store.trades
      {
        ExpireRow(loaded[i], loaded[i + 1..], cutoff) by {
          assert loaded[i..] == [loaded[i]] + loaded[i + 1..];
        }
      }
      SweepAdvance(Here(), frame.sweeping, NOTHING);
      Step(Here(), NOTHING);
    }

    method LoadRows(ids: seq<TradeId>, cutoff: Option<Time>) returns (loaded: seq<Trade>)
      requires Going() && frame == Sweep(Loading(ids, [], cutoff))
      requires forall i :: 0 <= i < |ids| ==> ids[i] in store.trades
      modifies this`trace, this`frame
      ensures Going() && Here() == old(Here()) && frame == Sweep(Expiring(loaded, cutoff))
      ensures forall k :: 0 <= k < |loaded| ==> loaded[k].id in store.trades
    {
      hide WorldOk, FrameOk, Fact, Enforces, Exec, Told, Ready, Advance, Shown, Expirable, Apply;
      loaded := [];
      for i := 0 to |ids|
        invariant Going() && Here() == old(Here()) && frame == Sweep(Loading(ids[i..], loaded, cutoff))
        invariant forall k :: 0 <= k < |loaded| ==> loaded[k].id in store.trades
      {
        SweepAdvance(Here(), frame.sweeping, NOTHING);
        RowHasId(cfg, Here(), ids[i]);
        loaded := loaded + [store.trades[ids[i]]];
        Step(Here(), NOTHING);
        assert ids[i..][1..] == ids[i + 1..];
      }
      SweepAdvance(Here(), frame.sweeping, NOTHING);
      Step(Here(), NOTHING);
    }

    method ExpireRow(tr: Trade, rest: seq<Trade>, cutoff: Option<Time>)
      requires Going() && frame == Sweep(Expiring([tr] + rest, cutoff)) && tr.id in store.trades
      modifies this`trace, this`frame, store
      ensures Going() && now == old(now) && landed == old(landed) && store.trades.Keys == old(store.trades.Keys)
      ensures frame == Sweep(Expiring(rest, cutoff))
    {
      hide WorldOk, FrameOk, Fact, Enforces, Exec, Told, Ready, Advance, Shown, Apply;
      var expirable := Expirable(cfg, store.Snapshot(), tr, cutoff, now);
      SweepAdvance(Here(), frame.sweeping, NOTHING);
      Step(Here(), NOTHING);
      assert ([tr] + rest)[1..] == rest;
      if expirable {
        var row := ApplyAs(tr, None, Cancelled, Some(EventExpired), ThenSweep(rest, cutoff));
      }
    }

    // ---------------------------------------------------------------- creating

    /** The draft is what the offer, the two agents and the clock determine; none when any
        of them refuses. */
    method Create(offer: OfferId, actor: AgentId, key: Option<Key>, draft: Option<Trade>) returns (out: Outcome)
      requires Valid()
      requires OpenReady(cfg, store.Snapshot(), now, Start(Command.Create(offer, actor, key)), NOTHING.(draft := draft))
      modifies this, store
      ensures Valid() && now == old(now)
      ensures CalledOn(cfg, Some(ForDraft(draft)), old(Here()), Command.Create(offer, actor, key), Here(), out)
    {
      hide WorldOk, FrameOk, Fact, Enforces, Exec, Told, Ready, Advance, Shown;
      Enter(Command.Create(offer, actor, key), Some(ForDraft(draft)));
      var e := NOTHING.(draft := draft);
      OpenAdvance(Here(), frame.opening, e);
      var taken := FindKey(key);
      Capped();
      if taken.Some? { HolderIsUnique(cfg, Here(), taken.value, key); }
      Step(Here(), e);
      out := Refused;
      if taken.Some? {
        out := OkTrade(store.trades[taken.value]);
      } else if draft.Some? {
        out := Reserve(draft.value, actor);
      }
      Leave(out);
    }

    method FindKey(key: Option<Key>) returns (taken: Option<TradeId>)
      ensures taken.Some? <==> KeyTaken(store.Snapshot(), key)
      ensures taken.Some? ==> taken.value in store.trades && store.trades[taken.value].key == key
    {
      if key.None? {
        return None;
      }
      var todo := store.trades.Keys;
      while todo != {}
        invariant todo <= store.trades.Keys
        invariant forall t :: t in store.trades && t !in todo ==> store.trades[t].key != key
        decreases todo
      {
        var t :| t in todo;
        if store.trades[t].key == key {
          return Some(t);
        }
        todo := todo - {t};
      }
      taken := None;
    }

    lemma HolderIsUnique(cfg: Config, w: World, t: TradeId, key: Option<Key>)
      requires WorldOk(cfg, w) && t in w.db.trades && w.db.trades[t].key == key && key.Some?
      ensures forall u :: u in w.db.trades && w.db.trades[u].key == key ==> u == t
    {
      hide AcceptancesOk, RequestsOk, SettlementOk, ChainOk, LedgerOk, ReceiptsOk;
    }

    /** Held from the cap read to the insert: take the lock, check, insert, log. */
    method Reserve(draft: Trade, actor: AgentId) returns (out: Outcome)
      requires Going() && frame == Open(CreateLock(draft, actor))
      modifies this`trace, this`frame, store
      ensures Going() && now == old(now) && landed == old(landed) && frame == Returned(out)
    {
      hide WorldOk, FrameOk, Fact, Enforces, Exec, Told, Ready, Advance, Shown;
      OpenAdvance(Here(), frame.opening, NOTHING);
      Step(Here(), NOTHING);
      var ok := Checked(draft, None);
      OpenAdvance(Here(), frame.opening, NOTHING);
      Step(Here(), NOTHING);
      if !ok {
        return Refused;
      }
      out := Insert(draft.(createdAt := now, updatedAt := now), actor);
    }

    method Insert(tr: Trade, actor: AgentId) returns (out: Outcome)
      requires Going() && frame == Open(CreateInsert(tr, actor))
      modifies this`trace, this`frame, store
      ensures Going() && now == old(now) && landed == old(landed) && frame == Returned(out)
    {
      hide WorldOk, FrameOk, Fact, Enforces, Exec, Told, Ready, Advance, Shown;
      ghost var v := Here();
      OpenAdvance(v, frame.opening, NOTHING);
      var ok := store.CreateTrade(tr);
      Step(v, NOTHING);
      if !ok {
        return Refused;
      }
      v := Here();
      OpenAdvance(v, frame.opening, NOTHING);
      store.AppendTradeEvent(Event(tr.id, Some(actor), EventProposed, None, Proposed, now));
      Step(v, NOTHING);
      out := OkTrade(tr);
    }
  }
}
