/** What lost races cost at the fine grain: one reachable run for each order in which a
    build's insert and a finishing call's move can leave a finished trade with a live
    request. */
module Races {
  import opened Options
  import opened Domain
  import opened Tables
  import opened Protocol
  import opened Safety
  import opened Runs
  import opened MethodGrain
  import opened FineGrain
  import opened Overlap
  import Money

  // ---------------------------------------------------------------- runs, step by step

  lemma ReachInit(cfg: Config, now: Time, cluster: Cluster)
    ensures Reachable(cfg, Init(now, cluster))
  {
    var states := [Init(now, cluster)];
    assert IsRun(cfg, states, []);
    assert Init(now, cluster) == states[|states| - 1];
  }

  lemma ReachStep(cfg: Config, s: State, step: Step)
    requires Reachable(cfg, s) && Enabled(cfg, s, step)
    ensures Reachable(cfg, Next(cfg, s, step))
  {
    hide Enabled, Next;
    var states, steps :| IsRun(cfg, states, steps) && s == states[|states| - 1];
    var t := Next(cfg, s, step);
    var longer, more := states + [t], steps + [step];
    forall i | 0 <= i < |more| ensures Enabled(cfg, longer[i], more[i]) && longer[i + 1] == Next(cfg, longer[i], more[i]) {
      if i < |steps| { assert longer[i] == states[i] && longer[i + 1] == states[i + 1]; }
    }
    assert IsRun(cfg, longer, more) && t == longer[|longer| - 1];
  }

  /** One step of a call, its effect known. */
  lemma ReachRun(cfg: Config, s: State, c: CallId, e: Env, r: Effect) returns (t: State)
    requires Reachable(cfg, s) && c in s.calls && !s.calls[c].Returned? && !Waits(s.calls[c]) && s.lock.None?
    requires Ready(cfg, s.db, s.now, s.calls[c], e) && Advance(cfg, s.db, s.now, s.cluster, s.calls[c], e) == r
    requires !s.calls[c].Settle?
    ensures Reachable(cfg, t) && t == s.(db := r.db, calls := s.calls[c := r.frame])
  {
    hide Ready, Advance;
    ReachStep(cfg, s, Run(c, e));
    t := Next(cfg, s, Run(c, e));
  }

  lemma ReachInvoke(cfg: Config, s: State, c: CallId, cmd: Command) returns (t: State)
    requires Reachable(cfg, s) && c !in s.calls
    ensures Reachable(cfg, t) && t == s.(calls := s.calls[c := Open(Start(cmd))])
  {
    ReachStep(cfg, s, Invoke(c, cmd));
    t := Next(cfg, s, Invoke(c, cmd));
  }

  lemma ReachTick(cfg: Config, s: State, to: Time) returns (t: State)
    requires Reachable(cfg, s) && s.now <= to
    ensures Reachable(cfg, t) && t == s.(now := to)
  {
    ReachStep(cfg, s, Tick(to));
    t := Next(cfg, s, Tick(to));
  }

  // ---------------------------------------------------------------- an agreed trade

  const BUYER: AgentId := 1
  const SELLER: AgentId := 2

  function Row(state: TradeState): Trade
  {
    Trade(0, 0, BUYER, SELLER, Money.Amount("1"), "m", Onchain, state, None, 0, 0)
  }

  const QUIET := Env(None, true, 0, 1, 0, NotFound, [])

  /** One trade, these acceptances and requests, the first calls used up. */
  ghost predicate Stage(cfg: Config, s: State, state: TradeState, accepted: set<AgentId>, requests: map<RequestId, Request>, calls: nat)
  {
    && Reachable(cfg, s) && s.cluster == 0 && s.lock.None? && s.db.requests == requests
    && s.db.trades == map[0 := Row(state)]
    && (forall a :: (0, a) in s.db.acceptances <==> a in accepted)
    && forall c :: c in s.calls ==> c < calls
  }

  ghost predicate Racing(cfg: Config) { cfg.settlement && !cfg.capped }

  lemma StageCreated(cfg: Config) returns (s: State)
    requires Racing(cfg)
    ensures Stage(cfg, s, Proposed, {}, map[], 1) && s.now == 0
  {
    hide Reachable;
    ReachInit(cfg, 0, 0);
    var a := ReachInvoke(cfg, Init(0, 0), 0, Create(0, BUYER, None));
    var e := QUIET.(draft := Some(Row(Proposed)));
    var b := ReachRun(cfg, a, 0, e, Effect(a.db, Open(CreateInsert(Row(Proposed), BUYER))));
    s := ReachRun(cfg, b, 0, QUIET, Effect(InsertTrade(b.db, Row(Proposed)), Open(CreateLog(Row(Proposed), BUYER, 0))));
    assert s.db.trades == map[0 := Row(Proposed)];
  }

  lemma StageBegun(cfg: Config, s: State) returns (t: State)
    requires Racing(cfg) && Stage(cfg, s, Proposed, {}, map[], 1) && s.now == 0
    ensures Stage(cfg, t, Negotiating, {}, map[], 2) && t.now == 0
  {
    hide Reachable;
    var a := ReachInvoke(cfg, s, 1, Begin(BUYER, 0));
    var m := Applying(Row(Proposed), Some(BUYER), Negotiating, EventNegotiating, Return, 0);
    var b := ReachRun(cfg, a, 1, QUIET, Effect(a.db, Move(m)));
    t := ReachRun(cfg, b, 1, QUIET, AdvanceMove(b.db, 0, m));
    assert t.db.trades == map[0 := Row(Negotiating)];
  }

  lemma StageAccepted(cfg: Config, s: State) returns (t: State)
    requires Racing(cfg) && Stage(cfg, s, Negotiating, {}, map[], 2) && s.now == 0
    ensures Stage(cfg, t, Negotiating, {BUYER}, map[], 3) && t.now == 0
  {
    hide Reachable;
    var a := ReachInvoke(cfg, s, 2, Accept(BUYER, 0));
    var b := ReachRun(cfg, a, 2, QUIET, Effect(a.db, Agree(AcceptInsert(Row(Negotiating), BUYER, 0))));
    t := ReachRun(cfg, b, 2, QUIET, AdvanceAgree(b.db, 0, AcceptInsert(Row(Negotiating), BUYER, 0)));
  }

  const BOTH := {BUYER, SELLER}

  lemma StageBoth(cfg: Config, s: State) returns (t: State)
    requires Racing(cfg) && Stage(cfg, s, Negotiating, {BUYER}, map[], 3) && s.now == 0
    ensures Stage(cfg, t, Negotiating, BOTH, map[], 4) && t.now == 0
    ensures 3 in t.calls && t.calls[3] == Agree(AcceptCount(Row(Negotiating), SELLER))
  {
    hide Reachable;
    var row := Row(Negotiating);
    var a := ReachInvoke(cfg, s, 3, Accept(SELLER, 0));
    var b := ReachRun(cfg, a, 3, QUIET, Effect(a.db, Agree(AcceptInsert(row, SELLER, 0))));
    var c := ReachRun(cfg, b, 3, QUIET, Effect(InsertAcceptance(b.db, 0, SELLER, 0), Agree(AcceptRow(0, SELLER))));
    t := ReachRun(cfg, c, 3, QUIET, Effect(c.db, Agree(AcceptCount(row, SELLER))));
  }

  lemma StageAgreed(cfg: Config, s: State) returns (t: State)
    requires Racing(cfg) && Stage(cfg, s, Negotiating, BOTH, map[], 4) && s.now == 0
    requires 3 in s.calls && s.calls[3] == Agree(AcceptCount(Row(Negotiating), SELLER))
    ensures Stage(cfg, t, Accepted, BOTH, map[], 4) && t.now == 0
  {
    hide Reachable;
    BothCounted(s.db);
    var m := Applying(Row(Negotiating), Some(SELLER), Accepted, EventAccepted, Return, 0);
    var f := ReachRun(cfg, s, 3, QUIET, Effect(s.db, Move(m)));
    t := ReachRun(cfg, f, 3, QUIET, AdvanceMove(f.db, 0, m));
    assert t.db.trades == map[0 := Row(Accepted)];
  }

  lemma BothCounted(db: Db)
    requires (0, BUYER) in db.acceptances && (0, SELLER) in db.acceptances
    ensures |Acceptors(db, Row(Negotiating))| == 2
  {
    assert Acceptors(db, Row(Negotiating)) == {BUYER, SELLER};
  }

  lemma Agreed(cfg: Config) returns (s: State)
    requires Racing(cfg)
    ensures Stage(cfg, s, Accepted, BOTH, map[], 4) && s.now == 0
  {
    hide Stage;
    s := StageCreated(cfg);
    s := StageBegun(cfg, s);
    s := StageAccepted(cfg, s);
    s := StageBoth(cfg, s);
    s := StageAgreed(cfg, s);
  }

  // ---------------------------------------------------------------- builds and finishing calls

  /** A build reads the trade and passes its checks. */
  lemma BuildReads(cfg: Config, s: State, c: CallId, state: TradeState, requests: map<RequestId, Request>) returns (t: State)
    requires Racing(cfg) && Stage(cfg, s, state, BOTH, requests, c) && state in {Accepted, SettlementPending}
    ensures Stage(cfg, t, state, BOTH, requests, c + 1) && t.now == s.now && Extends(s, t)
    ensures c in t.calls && t.calls[c] == Leave(Building(Row(state), BUYER, s.now))
  {
    hide Reachable;
    var a := ReachInvoke(cfg, s, c, Build(BUYER, 0));
    var b := ReachRun(cfg, a, c, QUIET, Effect(a.db, Leave(Spending(Row(state), BUYER, true))));
    t := ReachRun(cfg, b, c, QUIET, Effect(b.db, Leave(Building(Row(state), BUYER, s.now))));
  }

  /** Frames already there are as they were. */
  predicate Extends(s: State, t: State) { forall c :: c in s.calls ==> c in t.calls && t.calls[c] == s.calls[c] }

  function Issue(id: RequestId, at: Time, until: Time): Request { Request(id, 0, 0, Issued, None, at, until) }

  /** A build inserts its request, and on an accepted copy goes on to move the trade. */
  lemma BuildInserts(cfg: Config, s: State, c: CallId, state: TradeState, copy: TradeState, calls: nat, e: Env) returns (t: State)
    requires Racing(cfg) && Stage(cfg, s, state, BOTH, map[], calls) && copy in {Accepted, SettlementPending}
    requires c in s.calls && s.calls[c] == Leave(Building(Row(copy), BUYER, s.now))
    ensures Stage(cfg, t, state, BOTH, map[e.freshId := Issue(e.freshId, s.now, e.expiresAt)], calls) && t.now == s.now
    ensures forall d :: d in s.calls && d != c ==> d in t.calls && t.calls[d] == s.calls[d]
    ensures c in t.calls && (copy == Accepted ==> Awaits(t.calls[c], 0) && t.calls[c].moving.tr == Row(Accepted)
                                                  && t.calls[c].moving.kind == EventSettlementPending && t.calls[c].moving.at == s.now)
  {
    hide Reachable;
    t := ReachRun(cfg, s, c, e, AdvanceLeave(cfg, s.db, s.now, s.cluster, Building(Row(copy), BUYER, s.now), e));
    assert t.db.requests == map[e.freshId := Issue(e.freshId, s.now, e.expiresAt)];
  }

  /** A record reads the accepted trade and is about to commit it. */
  lemma RecordReads(cfg: Config, s: State, c: CallId, requests: map<RequestId, Request>) returns (t: State)
    requires Racing(cfg) && Stage(cfg, s, Accepted, BOTH, requests, c)
    ensures Stage(cfg, t, Accepted, BOTH, requests, c + 1) && t.now == s.now && Extends(s, t)
    ensures c in t.calls && t.calls[c] == Move(Applying(Row(Accepted), Some(BUYER), Recorded, EventRecorded, ThenLedger(None), s.now))
  {
    hide Reachable;
    var a := ReachInvoke(cfg, s, c, Record(BUYER, 0));
    var b := ReachRun(cfg, a, c, QUIET, Effect(a.db, Leave(Spending(Row(Accepted), BUYER, false))));
    var m := Applying(Row(Accepted), Some(BUYER), Recorded, EventRecorded, ThenLedger(None), s.now);
    t := ReachRun(cfg, b, c, QUIET, Effect(b.db, Move(m)));
  }

  /** A pending compare-and-set lands. */
  lemma MoveLands(cfg: Config, s: State, c: CallId, m: Moving, requests: map<RequestId, Request>, calls: nat) returns (t: State)
    requires m.Applying? && Stage(cfg, s, m.tr.state, BOTH, requests, calls) && m.tr == Row(m.tr.state) && m.at == 0
    requires c in s.calls && s.calls[c] == Move(m)
    ensures Stage(cfg, t, m.to, BOTH, requests, calls) && t.now == s.now && t == Next(cfg, s, Run(c, QUIET))
    ensures Enabled(cfg, s, Run(c, QUIET))
    ensures forall d :: d in s.calls && d != c ==> d in t.calls && t.calls[d] == s.calls[d]
  {
    hide Reachable;
    t := ReachRun(cfg, s, c, QUIET, AdvanceMove(s.db, s.now, m));
    assert t.db.trades == map[0 := Row(m.to)];
  }

  lemma OnlyIssue(db: Db, id: RequestId, at: Time, until: Time, now: Time)
    requires db.requests == map[id := Issue(id, at, until)]
    ensures HasLiveRequest(db, 0, now) <==> now < until
  {
    if now < until { assert db.requests[id].Live(now); }
  }

  /** A cancel of a pending trade whose only request has lapsed looks for the last time. */
  lemma CancelReads(cfg: Config, s: State, c: CallId, id: RequestId, at: Time, until: Time) returns (t: State)
    requires Racing(cfg) && Stage(cfg, s, SettlementPending, BOTH, map[id := Issue(id, at, until)], c) && until <= s.now
    ensures Stage(cfg, t, SettlementPending, BOTH, map[id := Issue(id, at, until)], c + 1) && t.now == s.now
    ensures c in t.calls
            && t.calls[c] == Move(Applying(Row(SettlementPending), Some(BUYER), Cancelled, EventCancelled, Return, s.now))
  {
    hide Reachable;
    OnlyIssue(s.db, id, at, until, s.now);
    var a := ReachInvoke(cfg, s, c, Cancel(BUYER, 0));
    var b := ReachRun(cfg, a, c, QUIET, Effect(a.db, Leave(CancelLive(Row(SettlementPending), BUYER))));
    var m := Applying(Row(SettlementPending), Some(BUYER), Cancelled, EventCancelled, Return, s.now);
    hide HasLiveRequest;
    t := ReachRun(cfg, b, c, QUIET, Effect(b.db, Move(m)));
  }

  /** A second build supersedes the lapsed request with a live one. */
  lemma BuildReissues(cfg: Config, s: State, c: CallId, d: CallId) returns (t: State)
    requires Racing(cfg) && Stage(cfg, s, SettlementPending, BOTH, map[0 := Issue(0, 0, 1)], d + 1) && s.now == 1
    requires c in s.calls && c != d && d in s.calls && s.calls[d] == Leave(Building(Row(SettlementPending), BUYER, 1))
    ensures Reachable(cfg, t) && t.now == 1 && t.lock.None? && t.db.trades == s.db.trades
    ensures HasLiveRequest(t.db, 0, 1) && c in t.calls && t.calls[c] == s.calls[c]
  {
    hide Reachable;
    var e := QUIET.(freshId := 1, expiresAt := 2);
    t := ReachRun(cfg, s, d, e, AdvanceLeave(cfg, s.db, 1, s.cluster, Building(Row(SettlementPending), BUYER, 1), e));
    assert t.db.requests[1].Live(1);
  }

  // ---------------------------------------------------------------- the three orders

  /** A reachable state one step short of a finished trade with a live request. */
  ghost predicate Brink(cfg: Config, s: State, step: Step)
  {
    && Reachable(cfg, s) && Enabled(cfg, s, step)
    && !FinishedHoldsLive(s, 0) && FinishedHoldsLive(Next(cfg, s, step), 0)
  }

  lemma AtBrink(cfg: Config, s: State, step: Step, x: Time)
    requires Reachable(cfg, s) && Enabled(cfg, s, step) && !FinishedHoldsLive(s, 0)
    requires (IsFinished(s.db, 0) && x > s.now && Inserts(s, step, 0, x)) || (Finishes(s, step, 0) && HasLiveRequest(s.db, 0, s.now))
    ensures Brink(cfg, s, step)
  {
    hide Inv, Reachable, Enabled, Next, FinishedHoldsLive, HasLiveRequest, IsFinished;
    ReachableInv(cfg, s);
    BecomesHeld(cfg, s, step, 0);
  }

  /** A build has read the accepted trade; a record commits it; the build inserts its
      request all the same. */
  lemma RecordThenInsert(cfg: Config) returns (s: State, step: Step)
    requires Racing(cfg)
    ensures Brink(cfg, s, step) && IsFinished(s.db, 0) && Inserts(s, step, 0, 1)
  {
    hide Reachable, Next, Brink;
    s := Agreed(cfg);
    s := BuildReads(cfg, s, 4, Accepted, map[]);
    var build := s.calls[4];
    s := RecordReads(cfg, s, 5, map[]);
    s := MoveLands(cfg, s, 5, s.calls[5].moving, map[], 6);
    assert s.calls[4] == build;
    step := Run(4, QUIET);
    AtBrink(cfg, s, step, 1);
  }

  /** A record has read the accepted trade; a build inserts its request and has yet to move
      the trade; the record commits it. */
  lemma InsertThenRecord(cfg: Config) returns (s: State, step: Step)
    requires Racing(cfg)
    ensures Brink(cfg, s, step) && Finishes(s, step, 0) && HasLiveRequest(s.db, 0, s.now)
    ensures 4 in s.calls && Awaits(s.calls[4], 0) && s.db.trades[0].state == Accepted
  {
    hide Reachable, Next, Brink, HasLiveRequest;
    s := Agreed(cfg);
    s := BuildReads(cfg, s, 4, Accepted, map[]);
    var build := s.calls[4];
    s := RecordReads(cfg, s, 5, map[]);
    assert s.calls[4] == build;
    s := BuildInserts(cfg, s, 4, Accepted, Accepted, 6, QUIET);
    OnlyIssue(s.db, 0, 0, 1, 0);
    step := Run(5, QUIET);
    AtBrink(cfg, s, step, 0);
  }

  /** A build has issued a request for the trade, moved it to pending, and its request has
      lapsed. */
  lemma Lapsed(cfg: Config) returns (s: State)
    requires Racing(cfg)
    ensures Stage(cfg, s, SettlementPending, BOTH, map[0 := Issue(0, 0, 1)], 5) && s.now == 1
  {
    hide Reachable, Next;
    s := Agreed(cfg);
    s := BuildReads(cfg, s, 4, Accepted, map[]);
    s := BuildInserts(cfg, s, 4, Accepted, Accepted, 5, QUIET);
    s := MoveLands(cfg, s, 4, s.calls[4].moving, map[0 := Issue(0, 0, 1)], 5);
    s := ReachTick(cfg, s, 1);
  }

  /** A cancel finds the only request of a pending trade lapsed; a build issues another;
      the cancel lands. */
  lemma InsertThenCancel(cfg: Config) returns (s: State, step: Step)
    requires Racing(cfg)
    ensures Brink(cfg, s, step) && Finishes(s, step, 0) && HasLiveRequest(s.db, 0, s.now)
    ensures s.db.trades[0].state == SettlementPending
  {
    hide Reachable, Next, Brink, HasLiveRequest;
    s := Lapsed(cfg);
    s := CancelReads(cfg, s, 5, 0, 0, 1);
    var cancel := s.calls[5];
    s := BuildReads(cfg, s, 6, SettlementPending, map[0 := Issue(0, 0, 1)]);
    assert s.calls[5] == cancel;
    s := BuildReissues(cfg, s, 5, 6);
    step := Run(5, QUIET);
    AtBrink(cfg, s, step, 0);
  }
}
