/** What the two sweeps come to when made alone: which trades a pass looks at, and what it
    makes of each. */
module SweepCalls {
  import opened Options
  import opened Domain
  import opened Tables
  import opened Protocol
  import opened Safety
  import opened Interleaving
  import opened Runs
  import opened Sequential
  import opened RunningAlone
  import opened Calls
  import opened Outcomes

  // ---------------------------------------------------------------- which trades

  /** Past both agreements for some time now. */
  ghost predicate AgreedBy(db: Db, t: TradeId, at: Time)
  {
    t in db.trades && db.trades[t].state == Accepted && exists a :: (t, a) in db.acceptances && db.acceptances[(t, a)] <= at
  }

  /** Still open, and untouched since. */
  ghost predicate UntouchedSince(db: Db, t: TradeId, at: Time)
  {
    t in db.trades && db.trades[t].state in {Proposed, Negotiating} && db.trades[t].updatedAt <= at
  }

  /** The trades one pass takes: of those that match, the least recently updated, as many as
      the limit allows, a limit of zero standing for a hundred. */
  ghost predicate Takes(db: Db, batch: seq<TradeId>, limit: nat, matches: TradeId -> bool)
  {
    var most := if limit == 0 then 100 else limit;
    && |batch| <= most
    && (forall i, j :: 0 <= i < j < |batch| ==> batch[i] != batch[j])
    && (forall t :: t in batch ==> t in db.trades && matches(t))
    && (forall t, u :: t in batch && u in db.trades && matches(u) && u !in batch ==> db.trades[t].updatedAt <= db.trades[u].updatedAt)
    && (forall u :: u in db.trades && matches(u) && u !in batch ==> |batch| == most)
  }

  // ---------------------------------------------------------------- what becomes of them

  /** The tables once the trades of a list that are due have been cancelled, one by one, in
      nobody's name. */
  function Expiry(db: Db, batch: seq<TradeId>, due: TradeId -> bool, now: Time): Db
    requires forall t :: t in batch ==> t in db.trades
    decreases |batch|
  {
    if batch == [] then db
    else Expiry(if due(batch[0]) then Moved(db, batch[0], Cancelled, None, EventExpired, now) else db, batch[1..], due, now)
  }

  /** Each due trade of the list is cancelled; nothing else about any trade changes. */
  lemma {:induction false} ExpiryRows(db: Db, batch: seq<TradeId>, due: TradeId -> bool, now: Time, t: TradeId)
    requires (forall u :: u in batch ==> u in db.trades) && (forall i, j :: 0 <= i < j < |batch| ==> batch[i] != batch[j])
    requires t in db.trades
    ensures var w := Expiry(db, batch, due, now);
            w.trades.Keys == db.trades.Keys
            && w.trades[t] == if t in batch && due(t) then db.trades[t].(state := Cancelled, updatedAt := now) else db.trades[t]
    ensures Expiry(db, batch, due, now).(trades := map[], events := []) == db.(trades := map[], events := [])
    decreases |batch|
  {
    if batch != [] {
      var next := if due(batch[0]) then Moved(db, batch[0], Cancelled, None, EventExpired, now) else db;
      assert batch == [batch[0]] + batch[1..];
      assert forall u :: u in batch[1..] ==> u in next.trades && u != batch[0];
      ExpiryRows(next, batch[1..], due, now, t);
    }
  }

  // ---------------------------------------------------------------- following a pass

  function RowsOf(db: Db, ids: seq<TradeId>): seq<Trade>
    requires forall t :: t in ids ==> t in db.trades
  {
    seq(|ids|, i requires 0 <= i < |ids| => db.trades[ids[i]])
  }

  lemma {:induction false} LoadLeads(cfg: Config, v: World, batch: seq<TradeId>, k: nat, cutoff: Option<Time>, w: World, out: Outcome)
    requires k <= |batch| && forall t :: t in batch ==> t in v.db.trades
    requires Leads(cfg, None, v, Sweep(Loading(batch[k..], RowsOf(v.db, batch)[..k], cutoff)), w, out)
    ensures Leads(cfg, None, v, Sweep(Expiring(RowsOf(v.db, batch), cutoff)), w, out)
    decreases |batch| - k
  {
    hide Leads;
    var rows := RowsOf(v.db, batch);
    var s := Loading(batch[k..], rows[..k], cutoff);
    LeadsOn(cfg, None, v, Sweep(s), AdvanceSweep(cfg, v.db, v.now, s), w, out);
    if k < |batch| {
      assert batch[k..][0] == batch[k] && batch[k..][1..] == batch[k + 1..];
      assert rows[..k] + [v.db.trades[batch[k]]] == rows[..k + 1];
      LoadLeads(cfg, v, batch, k + 1, cutoff, w, out);
    } else {
      assert rows[..k] == rows;
    }
  }

  /** Rows still to be looked at are as they were read: nothing else is running. */
  ghost predicate Fresh(db: Db, rest: seq<Trade>, batch: seq<TradeId>)
  {
    |rest| == |batch| && forall i :: 0 <= i < |rest| ==> batch[i] in db.trades && rest[i] == db.trades[batch[i]] && rest[i].id == batch[i]
  }

  /** Whether the pass would cancel a trade depends on nothing the pass itself writes. */
  ghost predicate Decides(cfg: Config, db: Db, rest: seq<Trade>, cutoff: Option<Time>, now: Time, due: TradeId -> bool)
  {
    forall i :: 0 <= i < |rest| ==> (Expirable(cfg, db, rest[i], cutoff, now) <==> due(rest[i].id))
  }

  lemma {:induction false} ExpireLeads(cfg: Config, v: World, rest: seq<Trade>, batch: seq<TradeId>, cutoff: Option<Time>, due: TradeId -> bool,
                                       w: World, out: Outcome)
    requires Fresh(v.db, rest, batch) && (forall i, j :: 0 <= i < j < |batch| ==> batch[i] != batch[j])
    requires (forall i :: 0 <= i < |rest| ==> rest[i].state in {Proposed, Negotiating, Accepted})
    requires Decides(cfg, v.db, rest, cutoff, v.now, due)
    requires Leads(cfg, None, v, Sweep(Expiring(rest, cutoff)), w, out)
    ensures forall t :: t in batch ==> t in v.db.trades
    ensures w == v.(db := Expiry(v.db, batch, due, v.now)) && out == Swept
    decreases |rest|
  {
    hide Leads, Expirable;
    var s := Expiring(rest, cutoff);
    if rest == [] {
      LeadsOn(cfg, None, v, Sweep(s), Effect(v.db, Returned(Swept)), w, out);
      LeadsOut(cfg, None, v, Swept, w, out);
    } else {
      var t, tr := batch[0], rest[0];
      var m := Applying(tr, None, Cancelled, EventExpired, ThenSweep(rest[1..], cutoff), v.now);
      assert rest[0].state in {Proposed, Negotiating, Accepted};
      var next := if due(t) then Move(m) else Sweep(Expiring(rest[1..], cutoff));
      LeadsOn(cfg, None, v, Sweep(s), Effect(v.db, next), w, out);
      var u := if due(t) then v.(db := Moved(v.db, t, Cancelled, None, EventExpired, v.now)) else v;
      if due(t) { MoveLeads(cfg, None, v, m, w, out); }
      RestIsFresh(cfg, v.db, u.db, rest, batch, cutoff, v.now, due);
      ExpireLeads(cfg, u, rest[1..], batch[1..], cutoff, due, w, out);
    }
  }

  lemma RestIsFresh(cfg: Config, v: Db, u: Db, rest: seq<Trade>, batch: seq<TradeId>, cutoff: Option<Time>, now: Time, due: TradeId -> bool)
    requires rest != [] && Fresh(v, rest, batch) && (forall i, j :: 0 <= i < j < |batch| ==> batch[i] != batch[j])
    requires u.acceptances == v.acceptances && u.trades.Keys == v.trades.Keys
    requires forall t :: t in v.trades && t != batch[0] ==> u.trades[t] == v.trades[t]
    requires Decides(cfg, v, rest, cutoff, now, due)
    ensures Fresh(u, rest[1..], batch[1..]) && Decides(cfg, u, rest[1..], cutoff, now, due)
  {
    forall i | 0 <= i < |rest[1..]| ensures Expirable(cfg, u, rest[1..][i], cutoff, now) <==> due(rest[1..][i].id) {
      assert rest[1..][i] == rest[i + 1];
      SameDeadline(cfg, v, u, rest[i + 1], cutoff, now);
    }
  }

  lemma SameDeadline(cfg: Config, v: Db, u: Db, tr: Trade, cutoff: Option<Time>, now: Time)
    requires u.acceptances == v.acceptances
    ensures Expirable(cfg, u, tr, cutoff, now) <==> Expirable(cfg, v, tr, cutoff, now)
  {
  }

  // ---------------------------------------------------------------- the two sweeps

  lemma FirstIsSome(cfg: Config, w: World, t: TradeId, at: Time)
    requires WorldOk(cfg, w) && t in w.db.trades
    ensures AcceptedRow(w.db, t, at) <==> AgreedBy(w.db, t, at)
  {
    hide RequestsOk, SettlementOk, ChainOk, LedgerOk, ReceiptsOk;
    var tr := w.db.trades[t];
    if tr.state == Accepted {
      assert BothAccepted(w.db, tr);
      if AcceptedRow(w.db, t, at) {
        var a := if w.db.acceptances[(t, tr.buyer)] <= w.db.acceptances[(t, tr.seller)] then tr.buyer else tr.seller;
        assert (t, a) in w.db.acceptances && w.db.acceptances[(t, a)] <= at;
      }
    }
  }

  lemma BatchTakes(db: Db, batch: seq<TradeId>, limit: nat, row: TradeId -> bool, matches: TradeId -> bool)
    requires IsBatch(db, batch, limit, row) && forall t :: t in db.trades ==> (row(t) <==> matches(t))
    ensures Takes(db, batch, limit, matches)
  {
    forall t, u | t in batch && u in db.trades && matches(u) && u !in batch ensures t in db.trades && db.trades[t].updatedAt <= db.trades[u].updatedAt {
      var i :| 0 <= i < |batch| && batch[i] == t;
    }
  }

  /** The accepted sweep: without a term nothing; with one, of the trades agreed by now the
      least recently updated are looked at, and those whose earliest acceptance is a term
      old are cancelled. */
  lemma ExpireAcceptedDecides(cfg: Config, v: World, limit: nat, w: World, out: Outcome) returns (batch: seq<TradeId>)
    requires Calm(cfg, v) && Called(cfg, v, SweepAccepted(limit), w, out)
    ensures out == Swept && (cfg.acceptTtl <= 0 ==> w == v)
    ensures cfg.acceptTtl > 0 ==>
              && Takes(v.db, batch, limit, (t: TradeId) => AgreedBy(v.db, t, v.now))
              && w == v.(db := Expiry(v.db, batch, (t: TradeId) => Lapsed(cfg, v.db, t, v.now), v.now))
  {
    hide Leads, Called, WorldOk, Fact, IsBatch, AcceptedRow, AgreedBy, Takes, Lapsed;
    CalledIsLeads(cfg, None, v, SweepAccepted(limit), w, out);
    var f := Open(Start(SweepAccepted(limit)));
    var e := LeadsNext(cfg, None, v, f, w, out);
    assert v.landed + {} == v.landed;
    batch := e.batch;
    if cfg.acceptTtl <= 0 {
      LeadsOut(cfg, None, v, Swept, w, out);
    } else {
      forall t | t in v.db.trades ensures AcceptedRow(v.db, t, v.now) <==> AgreedBy(v.db, t, v.now) {
        FirstIsSome(cfg, v, t, v.now);
      }
      BatchTakes(v.db, batch, limit, (t: TradeId) => AcceptedRow(v.db, t, v.now), (t: TradeId) => AgreedBy(v.db, t, v.now));
      AcceptedPass(cfg, v, limit, batch, w, out);
    }
  }

  lemma AcceptedPass(cfg: Config, v: World, limit: nat, batch: seq<TradeId>, w: World, out: Outcome)
    requires WorldOk(cfg, v) && Takes(v.db, batch, limit, (t: TradeId) => AgreedBy(v.db, t, v.now))
    requires Leads(cfg, None, v, Sweep(Loading(batch, [], None)), w, out)
    ensures w == v.(db := Expiry(v.db, batch, (t: TradeId) => Lapsed(cfg, v.db, t, v.now), v.now)) && out == Swept
  {
    hide Leads, WorldOk, Lapsed, PastDeadline;
    var rows, due := RowsOf(v.db, batch), (t: TradeId) => Lapsed(cfg, v.db, t, v.now);
    assert batch[0..] == batch && rows[..0] == [];
    LoadLeads(cfg, v, batch, 0, None, w, out);
    forall i | 0 <= i < |batch| ensures rows[i].id == batch[i] && rows[i].state == Accepted && (Expirable(cfg, v.db, rows[i], None, v.now) <==> due(rows[i].id)) {
      assert batch[i] in batch;
      RowFacts(cfg, v, batch[i]);
      LapsedIsPastDeadline(cfg, v, batch[i]);
    }
    ExpireLeads(cfg, v, rows, batch, None, due, w, out);
  }

  /** The open sweep: without a term nothing; with one, of the open trades untouched for a
      term the least recently updated are all cancelled. */
  lemma ExpireOpenDecides(cfg: Config, v: World, limit: nat, w: World, out: Outcome) returns (batch: seq<TradeId>)
    requires Calm(cfg, v) && Called(cfg, v, SweepOpen(limit), w, out)
    ensures out == Swept && (cfg.openTtl <= 0 ==> w == v)
    ensures cfg.openTtl > 0 ==>
              && Takes(v.db, batch, limit, (t: TradeId) => UntouchedSince(v.db, t, v.now - cfg.openTtl))
              && w == v.(db := Expiry(v.db, batch, (t: TradeId) => true, v.now))
  {
    hide Leads, Called, WorldOk, Fact, IsBatch, OpenRow, UntouchedSince, Takes;
    CalledIsLeads(cfg, None, v, SweepOpen(limit), w, out);
    var f := Open(Start(SweepOpen(limit)));
    var e := LeadsNext(cfg, None, v, f, w, out);
    assert v.landed + {} == v.landed;
    batch := e.batch;
    if cfg.openTtl <= 0 {
      LeadsOut(cfg, None, v, Swept, w, out);
    } else {
      var at := v.now - cfg.openTtl;
      forall t | t in v.db.trades ensures OpenRow(v.db, t, at) <==> UntouchedSince(v.db, t, at) {
        OpenIsUntouched(v.db, t, at);
      }
      BatchTakes(v.db, batch, limit, (t: TradeId) => OpenRow(v.db, t, at), (t: TradeId) => UntouchedSince(v.db, t, at));
      OpenPass(cfg, v, limit, batch, w, out);
    }
  }

  lemma OpenIsUntouched(db: Db, t: TradeId, at: Time)
    ensures OpenRow(db, t, at) <==> UntouchedSince(db, t, at)
  {
  }

  lemma OpenPass(cfg: Config, v: World, limit: nat, batch: seq<TradeId>, w: World, out: Outcome)
    requires WorldOk(cfg, v) && Takes(v.db, batch, limit, (t: TradeId) => UntouchedSince(v.db, t, v.now - cfg.openTtl))
    requires Leads(cfg, None, v, Sweep(Loading(batch, [], Some(v.now - cfg.openTtl))), w, out)
    ensures w == v.(db := Expiry(v.db, batch, (t: TradeId) => true, v.now)) && out == Swept
  {
    hide Leads, WorldOk;
    var rows, cutoff, due := RowsOf(v.db, batch), Some(v.now - cfg.openTtl), (t: TradeId) => true;
    assert batch[0..] == batch && rows[..0] == [];
    LoadLeads(cfg, v, batch, 0, cutoff, w, out);
    forall i | 0 <= i < |batch| ensures rows[i].id == batch[i] && rows[i].state in {Proposed, Negotiating} && Expirable(cfg, v.db, rows[i], cutoff, v.now) {
      assert batch[i] in batch;
      RowFacts(cfg, v, batch[i]);
    }
    ExpireLeads(cfg, v, rows, batch, cutoff, due, w, out);
  }

  /** A sweep of accepted trades touches no trade within its term, and one that does not
      reach its limit leaves none beyond it. */
  lemma AcceptedSweepIsExact(cfg: Config, v: World, limit: nat, w: World, out: Outcome, t: TradeId)
    requires Calm(cfg, v) && Called(cfg, v, SweepAccepted(limit), w, out) && t in v.db.trades && cfg.acceptTtl > 0
    ensures t in w.db.trades
    ensures w.db.trades[t] != v.db.trades[t] ==>
              v.db.trades[t].state == Accepted && Lapsed(cfg, v.db, t, v.now) && w.db.trades[t].state == Cancelled
    ensures v.db.trades[t].state == Accepted && Lapsed(cfg, v.db, t, v.now) && w.db.trades[t].state == Accepted ==>
              exists batch :: Takes(v.db, batch, limit, (u: TradeId) => AgreedBy(v.db, u, v.now))
                              && |batch| == (if limit == 0 then 100 else limit) && t !in batch
  {
    hide Called, Calm, Lapsed;
    var batch := ExpireAcceptedDecides(cfg, v, limit, w, out);
    ExpiryRows(v.db, batch, (u: TradeId) => Lapsed(cfg, v.db, u, v.now), v.now, t);
    if v.db.trades[t].state == Accepted && Lapsed(cfg, v.db, t, v.now) { LapsedIsAgreed(cfg, v.db, t, v.now); }
  }

  lemma LapsedIsAgreed(cfg: Config, db: Db, t: TradeId, now: Time)
    requires t in db.trades && db.trades[t].state == Accepted && Lapsed(cfg, db, t, now)
    ensures AgreedBy(db, t, now)
  {
    var a :| (t, a) in db.acceptances && db.acceptances[(t, a)] + cfg.acceptTtl <= now;
    assert db.acceptances[(t, a)] <= now;
  }
}
