/** The event log as history. At the method grain the log, replayed from the start,
    spells every trade's stored state by legal moves in time order. */
module EventLog {
  import opened Options
  import opened Domain
  import opened Tables
  import opened Protocol
  import opened Safety

  predicate KindOk(actor: Actor, kind: EventType, from: TradeState, to: TradeState)
  {
    EventFor(from, to) == Some(kind) || (kind == EventExpired && to == Cancelled && Edge(from, to) && actor == None)
  }

  predicate Legal(e: Event)
  {
    if e.from.None? then e.to == Proposed && e.kind == EventProposed
    else KindOk(e.actor, e.kind, e.from.value, e.to)
  }

  /** Replaying one trade's events ends in this state, each event leaving the state the
      one before it reached. */
  predicate Spells(events: seq<Event>, t: TradeId, state: Option<TradeState>)
  {
    if events == [] then state == None
    else
      var e, before := events[|events| - 1], events[..|events| - 1];
      if e.trade != t then Spells(before, t, state)
      else state == Some(e.to) && Legal(e) && Spells(before, t, e.from)
  }

  function StateOf(db: Db, t: TradeId): Option<TradeState>
  {
    if t in db.trades then Some(db.trades[t].state) else None
  }

  /** The log with the event the running call has earned but not yet written. */
  function View(events: seq<Event>, f: Frame): seq<Event>
  {
    match f
    case Move(Logging(tr, agent, to, kind, _, at)) => events + [Event(tr.id, agent, kind, Some(tr.state), to, at)]
    case Open(CreateLog(tr, actor, at)) => events + [Event(tr.id, Some(actor), EventProposed, None, Proposed, at)]
    case _ => events
  }

  predicate InTimeOrder(events: seq<Event>, now: Time)
  {
    && (forall i, j :: 0 <= i < j < |events| ==> events[i].at <= events[j].at)
    && (forall i :: 0 <= i < |events| ==> events[i].at <= now)
  }

  ghost predicate Replays(db: Db, events: seq<Event>) { forall t: TradeId :: Spells(events, t, StateOf(db, t)) }

  ghost predicate Logged(db: Db, now: Time, f: Frame)
  {
    && Replays(db, View(db.events, f))
    && InTimeOrder(View(db.events, f), now)
    && (f.Move? && f.moving.Applying? ==> KindOk(f.moving.agent, f.moving.kind, f.moving.tr.state, f.moving.to))
  }

  // ---------------------------------------------------------------- steps that earn no event

  /** Owes the log nothing. */
  predicate Plain(f: Frame)
  {
    match f
    case Open(o) => !o.CreateLog?
    case Move(Applying(tr, agent, to, kind, _, _)) => KindOk(agent, kind, tr.state, to)
    case Move(Logging(_, _, _, _, _, _)) => false
    case _ => true
  }

  lemma ApplyIsPlain(tr: Trade, agent: Actor, to: TradeState, override: Option<EventType>, cont: Cont, now: Time)
    requires override.Some? ==>
               (to == Resolved && override.value == EventResolved)
               || (to == Cancelled && override.value == EventExpired && agent == None)
    ensures Plain(Apply(tr, agent, to, override, cont, now))
  {
  }

  lemma JudgeIsPlain(cfg: Config, tr: Trade, sig: Signature, list: map<RequestId, Request>, found: Option<RequestId>,
                     cluster: Cluster, tx: Transaction, failed: bool, termsOk: bool, now: Time)
    ensures Plain(Judge(cfg, tr, sig, list, found, cluster, tx, failed, termsOk, now))
  {
    hide Apply, Plain;
    ApplyIsPlain(tr, Some(tr.buyer), Disputed, None, Refuse, now);
    ApplyIsPlain(tr, Some(tr.buyer), Settled, None, ThenLedger(Some(sig)), now);
    SettleIsPlain(Withdrawing(tr));
    if found.Some? { SettleIsPlain(Confirming(tr, sig, list, found.value)); }
    ReturnIsPlain(Refused);
  }

  lemma SettleIsPlain(s: Settling)
    ensures Plain(Settle(s))
  {
  }

  lemma ReturnIsPlain(out: Outcome)
    ensures Plain(Returned(out))
  {
  }

  lemma OpenIsPlain(cfg: Config, db: Db, now: Time, o: Opening, e: Env)
    requires OpenReady(cfg, db, now, o, e) && !o.CreateInsert?
    ensures Plain(AdvanceOpen(cfg, db, now, o, e).frame)
  {
    hide IsBatch;
    if o.Start? && !o.cmd.Create? && !o.cmd.SweepAccepted? && !o.cmd.SweepOpen? && o.cmd.id in db.trades {
      var tr := db.trades[o.cmd.id];
      var agent := if o.cmd.Begin? || o.cmd.Dispute? then Some(o.cmd.actor) else None;
      ApplyIsPlain(tr, agent, Negotiating, None, Return, now);
      ApplyIsPlain(tr, agent, Disputed, None, Return, now);
      ApplyIsPlain(tr, None, Resolved, Some(EventResolved), Return, now);
      hide Apply;
    }
  }

  lemma SettlingIsPlain(cfg: Config, db: Db, now: Time, cluster: Cluster, s: Settling, e: Env)
    requires SettleReady(db, s, e)
    ensures Plain(AdvanceSettle(cfg, db, now, cluster, s, e).frame)
  {
    hide Apply, Judge, SettleReady;
    var tr := s.tr;
    ApplyIsPlain(tr, None, Cancelled, Some(EventExpired), Return, now);
    if s.Confirming? || s.Superseding? { ApplyIsPlain(tr, Some(tr.buyer), Settled, None, ThenLedger(Some(s.sig)), now); }
    if (s.Fetching? || s.Refetching?) && e.answer.Landed? {
      var found := if s.Fetching? then s.found else Some(s.cur);
      JudgeIsPlain(cfg, tr, s.sig, s.list, found, cluster, e.answer.tx, e.answer.failed, e.ok, now);
    }
    hide Judge;
  }

  lemma LeavingIsPlain(cfg: Config, db: Db, now: Time, cluster: Cluster, l: Leaving, e: Env)
    requires LeaveReady(db, l, e)
    ensures Plain(AdvanceLeave(cfg, db, now, cluster, l, e).frame)
  {
    hide Apply, PastDeadline, HasLiveRequest;
    ApplyIsPlain(l.tr, Some(l.actor), Cancelled, None, Return, now);
    ApplyIsPlain(l.tr, Some(l.actor), Recorded, None, ThenLedger(None), now);
    if l.Building? {
      ApplyIsPlain(l.tr, Some(l.actor), SettlementPending, None, ThenRequest(NewRequest(l.tr, cluster, l.at, e)), now);
    }
  }

  lemma OtherIsPlain(cfg: Config, db: Db, now: Time, cluster: Cluster, f: Frame, e: Env)
    requires Ready(cfg, db, now, f, e) && !f.Open? && !f.Settle? && !f.Leave? && !(f.Move? && f.moving.Applying?)
    ensures Plain(Advance(cfg, db, now, cluster, f, e).frame)
  {
    hide AppendOutcome, Acceptors, Expirable;
    match f
    case Agree(a) => if a.AcceptCount? { ApplyIsPlain(a.row, Some(a.actor), Accepted, None, Return, now); }
    case Sweep(s) =>
      if s.Expiring? && s.rest != [] {
        ApplyIsPlain(s.rest[0], None, Cancelled, Some(EventExpired), ThenSweep(s.rest[1..], s.cutoff), now);
      }
    case Move(m) =>
    case Stamp(p) =>
    case Returned(_) =>
  }

  lemma NextIsPlain(cfg: Config, db: Db, now: Time, cluster: Cluster, f: Frame, e: Env)
    requires Ready(cfg, db, now, f, e)
    requires !(f.Open? && f.opening.CreateInsert?) && !(f.Move? && f.moving.Applying?)
    ensures Plain(Advance(cfg, db, now, cluster, f, e).frame)
  {
    hide OpenReady, SettleReady, LeaveReady, AdvanceOpen, AdvanceSettle, AdvanceLeave, Plain;
    match f
    case Open(o) => OpenIsPlain(cfg, db, now, o, e);
    case Settle(s) => SettlingIsPlain(cfg, db, now, cluster, s, e);
    case Leave(l) => LeavingIsPlain(cfg, db, now, cluster, l, e);
    case _ => OtherIsPlain(cfg, db, now, cluster, f, e);
  }

  // ---------------------------------------------------------------- which steps write what

  predicate WritesTrade(f: Frame) { (f.Open? && f.opening.CreateInsert?) || (f.Move? && f.moving.Applying?) }

  predicate WritesEvent(f: Frame) { (f.Open? && f.opening.CreateLog?) || (f.Move? && f.moving.Logging?) }

  /** Only an insert and a guarded compare-and-set write trade rows, and only the step
      after one of these writes an event. */
  lemma RowsTouched(cfg: Config, db: Db, now: Time, cluster: Cluster, f: Frame, e: Env)
    requires Ready(cfg, db, now, f, e)
    ensures WritesTrade(f) || Advance(cfg, db, now, cluster, f, e).db.trades == db.trades
    ensures WritesEvent(f) || Advance(cfg, db, now, cluster, f, e).db.events == db.events
  {
    hide Begun, IsBatch, Judge, Apply, HasEntry;
    match f
    case Open(o) =>
    case Agree(a) =>
    case Leave(l) =>
    case Settle(s) => hide OpenReady; SettleTouches(cfg, db, now, cluster, s, e);
    case Sweep(s) =>
    case Move(m) =>
    case Stamp(p) =>
    case Returned(_) =>
  }

  lemma SettleTouches(cfg: Config, db: Db, now: Time, cluster: Cluster, s: Settling, e: Env)
    requires SettleReady(db, s, e)
    ensures AdvanceSettle(cfg, db, now, cluster, s, e).db.trades == db.trades
    ensures AdvanceSettle(cfg, db, now, cluster, s, e).db.events == db.events
  {
    hide Judge, Apply, Retire;
  }

  // ---------------------------------------------------------------- steps that do

  /** A legal event that leaves the state the log spells extends the history. */
  lemma Extends(db: Db, w: Db, events: seq<Event>, e: Event, now: Time)
    requires Replays(db, events) && InTimeOrder(events, now)
    requires Legal(e) && StateOf(db, e.trade) == e.from && e.at == now
    requires StateOf(w, e.trade) == Some(e.to)
    requires forall t :: t != e.trade ==> StateOf(w, t) == StateOf(db, t)
    ensures Replays(w, events + [e]) && InTimeOrder(events + [e], now)
  {
    hide StateOf, Legal;
    var longer := events + [e];
    assert longer[..|longer| - 1] == events && longer[|longer| - 1] == e;
    forall t: TradeId ensures Spells(longer, t, StateOf(w, t)) {
      assert Spells(events, t, StateOf(db, t));
    }
  }

  lemma InsertLogged(db: Db, now: Time, tr: Trade, actor: AgentId)
    requires Logged(db, now, Open(CreateInsert(tr, actor))) && tr.state == Proposed
    ensures CanInsert(db, tr) ==> Logged(InsertTrade(db, tr), now, Open(CreateLog(tr, actor, now)))
    ensures forall out :: !CanInsert(db, tr) ==> Logged(InsertTrade(db, tr), now, Returned(out))
  {
    if CanInsert(db, tr) {
      var e := Event(tr.id, Some(actor), EventProposed, None, Proposed, now);
      Extends(db, InsertTrade(db, tr), db.events, e, now);
    }
    hide Replays, InTimeOrder;
  }

  lemma CasLogged(db: Db, now: Time, m: Moving)
    requires m.Applying? && Logged(db, now, Move(m))
    ensures Logged(AdvanceMove(db, now, m).db, now, AdvanceMove(db, now, m).frame)
  {
    if CasApplies(db, m.tr.id, m.tr.state) {
      var e := Event(m.tr.id, m.agent, m.kind, Some(m.tr.state), m.to, now);
      Extends(db, CasState(db, m.tr.id, m.tr.state, m.to, m.at), db.events, e, now);
    }
    hide Replays, InTimeOrder, KindOk;
  }

  /** Writing the earned event, or anything that touches neither trades nor events. */
  lemma SameLog(db: Db, w: Db, now: Time, f: Frame, g: Frame)
    requires Logged(db, now, f) && Plain(g) && w.trades == db.trades && w.events == View(db.events, f)
    ensures Logged(w, now, g)
  {
    forall t: TradeId ensures Spells(w.events, t, StateOf(w, t)) {
      assert Spells(View(db.events, f), t, StateOf(db, t));
    }
  }

  lemma LogStep(cfg: Config, w: World, f: Frame, e: Env)
    requires FrameOk(cfg, w, f) && Ready(cfg, w.db, w.now, f, e) && Logged(w.db, w.now, f)
    ensures var r := Advance(cfg, w.db, w.now, w.cluster, f, e); Logged(r.db, w.now, r.frame)
  {
    hide Logged, Plain, LeaveReady, SettleReady, AdvanceLeave, AdvanceSettle, AdvanceSweep, AdvanceStamp, AdvanceAgree,
         LeaveOk, SettleOk, SweepOk, StampOk, AgreeOk, MoveOk, InsertTrade, CanInsert;
    if f.Open? && f.opening.CreateInsert? {
      InsertLogged(w.db, w.now, f.opening.draft, f.opening.actor);
    } else if f.Move? && f.moving.Applying? {
      CasLogged(w.db, w.now, f.moving);
    } else {
      hide FrameOk;
      RowsTouched(cfg, w.db, w.now, w.cluster, f, e);
      NextIsPlain(cfg, w.db, w.now, w.cluster, f, e);
      WrittenView(cfg, w, f, e);
      hide Ready, Advance;
      var r := Advance(cfg, w.db, w.now, w.cluster, f, e);
      SameLog(w.db, r.db, w.now, f, r.frame);
    }
  }

  lemma WrittenView(cfg: Config, w: World, f: Frame, e: Env)
    requires Ready(cfg, w.db, w.now, f, e)
    ensures WritesEvent(f) ==> var r := Advance(cfg, w.db, w.now, w.cluster, f, e);
              r.db.events == View(w.db.events, f) && r.db.trades == w.db.trades
    ensures !WritesEvent(f) ==> View(w.db.events, f) == w.db.events
  {
    if WritesEvent(f) {
      hide IsBatch;
    } else {
      hide Ready, Advance;
    }
  }

  // ---------------------------------------------------------------- what a faithful log says

  /** The states one trade's events lead through. */
  function Trail(events: seq<Event>, t: TradeId): seq<TradeState>
  {
    if events == [] then []
    else
      var e, before := events[|events| - 1], events[..|events| - 1];
      if e.trade == t then Trail(before, t) + [e.to] else Trail(before, t)
  }

  /** A spelled history is a path of legal moves from proposed. */
  lemma {:induction false} TrailIsPath(events: seq<Event>, t: TradeId, state: Option<TradeState>)
    requires Spells(events, t, state)
    ensures state.None? ==> Trail(events, t) == []
    ensures state.Some? ==> Path(Trail(events, t), Proposed, state.value)
  {
    if events != [] {
      var e, before := events[|events| - 1], events[..|events| - 1];
      if e.trade == t {
        TrailIsPath(before, t, e.from);
        var p := Trail(events, t);
        forall i | 0 <= i < |p| - 1 ensures Edge(p[i], p[i + 1]) {
          if i < |p| - 2 { assert p[i] == Trail(before, t)[i] && p[i + 1] == Trail(before, t)[i + 1]; }
        }
      } else {
        TrailIsPath(before, t, state);
      }
    }
  }
}
