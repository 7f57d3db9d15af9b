/** One call run from start to end with nothing else running, as a fold of its steps. */
module RunningAlone {
  import opened Options
  import opened Domain
  import opened Tables
  import opened Protocol
  import opened Safety
  import opened Interleaving
  import opened Runs
  import opened EventLog
  import opened MethodGrain
  import opened Sequential

  /** Where a call's own steps lead, if each of them is enabled. */
  ghost function Exec(cfg: Config, v: World, f: Frame, es: seq<Env>): Option<(World, Frame)>
  {
    if es == [] then Some((v, f))
    else
      var e, p := es[|es| - 1], Exec(cfg, v, f, es[..|es| - 1]);
      if p.Some? && !p.value.1.Returned? && Ready(cfg, p.value.0.db, p.value.0.now, p.value.1, e) then
        var (w, g) := p.value;
        var r := Advance(cfg, w.db, w.now, w.cluster, g, e);
        Some((After(w, r, Shown(g, e)), r.frame))
      else None
  }

  lemma ExecStep(cfg: Config, v: World, f: Frame, es: seq<Env>, w: World, g: Frame, e: Env)
    requires Exec(cfg, v, f, es) == Some((w, g)) && !g.Returned? && Ready(cfg, w.db, w.now, g, e)
    ensures var r := Advance(cfg, w.db, w.now, w.cluster, g, e);
            Exec(cfg, v, f, es + [e]) == Some((After(w, r, Shown(g, e)), r.frame))
  {
    hide Ready, Advance, Shown;
    assert (es + [e])[..|es|] == es;
  }

  /** A call made alone: it starts here, ends there, and hands this out. */
  ghost predicate Called(cfg: Config, v: World, cmd: Command, w: World, out: Outcome)
  {
    exists es :: Exec(cfg, v, Open(Start(cmd)), es) == Some((w, Returned(out)))
  }

  lemma {:induction false} ExecKeeps(cfg: Config, v: World, f: Frame, es: seq<Env>)
    requires WorldOk(cfg, v) && FrameOk(cfg, v, f) && Fact(cfg, v.db, v.now, f)
    ensures var p := Exec(cfg, v, f, es);
            p.Some? ==> WorldOk(cfg, p.value.0) && FrameOk(cfg, p.value.0, p.value.1)
                        && Fact(cfg, p.value.0.db, p.value.0.now, p.value.1)
                        && p.value.0.now == v.now && p.value.0.cluster == v.cluster
  {
    hide WorldOk, FrameOk, Fact, Ready, Advance, Shown, Later;
    if es != [] {
      var e, before := es[|es| - 1], es[..|es| - 1];
      ExecKeeps(cfg, v, f, before);
      var p := Exec(cfg, v, f, before);
      if p.Some? && !p.value.1.Returned? && Ready(cfg, p.value.0.db, p.value.0.now, p.value.1, e) {
        FrameStep(cfg, p.value.0, p.value.1, e);
        FactStep(cfg, p.value.0, p.value.1, e);
      }
    }
  }

  /** A call made alone keeps the table invariants and everything claimed between calls. */
  lemma CalledKeeps(cfg: Config, v: World, cmd: Command, w: World, out: Outcome)
    requires WorldOk(cfg, v) && Fact(cfg, v.db, v.now, IDLE) && Called(cfg, v, cmd, w, out)
    ensures WorldOk(cfg, w) && Fact(cfg, w.db, w.now, IDLE) && ResultOk(w, out)
  {
    hide WorldOk, Fact, Exec, ResultOk;
    var es :| Exec(cfg, v, Open(Start(cmd)), es) == Some((w, Returned(out)));
    FactStarts(cfg, v.db, v.now, cmd);
    StartOk(cfg, v, cmd);
    ExecKeeps(cfg, v, Open(Start(cmd)), es);
    FactIdles(cfg, w.db, w.now, out);
  }

  // ---------------------------------------------------------------- as part of a run

  /** Running one call's steps in the whole system. */
  ghost predicate RunsTo(cfg: Config, s: State, c: CallId, es: seq<Env>, t: State)
  {
    exists states: seq<State> ::
      && |states| == |es| + 1 && states[0] == s && states[|es|] == t
      && forall i :: 0 <= i < |es| ==> Enabled(cfg, states[i], Run(c, es[i])) && states[i + 1] == Next(cfg, states[i], Run(c, es[i]))
  }

  ghost predicate Matches(s: State, t: State, c: CallId, w: World, g: Frame)
  {
    && WorldOf(t) == w && c in t.calls && t.calls[c] == g
    && (forall d :: d in t.calls && d != c ==> d in s.calls && t.calls[d] == s.calls[d])
    && (t.lock.Some? ==> t.lock == Some(c) && Holds(g))
  }

  /** The fold is what the interleaved system does when only this call steps. */
  lemma {:induction false} ExecIsRun(cfg: Config, s: State, c: CallId, es: seq<Env>)
    requires c in s.calls && s.lock.None? && Exec(cfg, WorldOf(s), s.calls[c], es).Some?
    ensures var (w, g) := Exec(cfg, WorldOf(s), s.calls[c], es).value;
            exists t :: RunsTo(cfg, s, c, es, t) && Matches(s, t, c, w, g)
  {
    hide Ready, Advance, Shown, Holds, Waits;
    if es == [] {
      assert RunsTo(cfg, s, c, es, s) by { var states := [s]; assert states[0] == s; }
      assert Matches(s, s, c, WorldOf(s), s.calls[c]);
    } else {
      var e, before := es[|es| - 1], es[..|es| - 1];
      ExecIsRun(cfg, s, c, before);
      var (w, g) := Exec(cfg, WorldOf(s), s.calls[c], before).value;
      var t :| RunsTo(cfg, s, c, before, t) && Matches(s, t, c, w, g);
      NeverWaitsLocked(g);
      assert Enabled(cfg, t, Run(c, e));
      var u := Next(cfg, t, Run(c, e));
      RunsOneMore(cfg, s, c, before, t, e);
      assert before + [e] == es;
      LockStays(cfg, t, c, e);
      hide RunsTo;
      assert Matches(s, u, c, WorldOf(u), u.calls[c]);
    }
  }

  lemma NeverWaitsLocked(g: Frame)
    ensures !(Waits(g) && Holds(g))
  {
  }

  lemma LockStays(cfg: Config, s: State, c: CallId, e: Env)
    requires Enabled(cfg, s, Run(c, e)) && (s.lock.Some? ==> s.lock == Some(c) && Holds(s.calls[c]))
    ensures var t := Next(cfg, s, Run(c, e)); t.lock.Some? ==> t.lock == Some(c) && Holds(t.calls[c])
  {
    LockStep(cfg, s.db, s.now, s.cluster, s.calls[c], e);
    hide Ready, Advance;
  }

  lemma RunsOneMore(cfg: Config, s: State, c: CallId, es: seq<Env>, t: State, e: Env)
    requires RunsTo(cfg, s, c, es, t) && Enabled(cfg, t, Run(c, e))
    ensures RunsTo(cfg, s, c, es + [e], Next(cfg, t, Run(c, e)))
  {
    hide Enabled, Next;
    var states: seq<State> :|
      && |states| == |es| + 1 && states[0] == s && states[|es|] == t
      && forall i :: 0 <= i < |es| ==> Enabled(cfg, states[i], Run(c, es[i])) && states[i + 1] == Next(cfg, states[i], Run(c, es[i]));
    var longer := states + [Next(cfg, t, Run(c, e))];
    assert longer[|es| + 1] == Next(cfg, t, Run(c, e));
    forall i | 0 <= i < |es| + 1
      ensures Enabled(cfg, longer[i], Run(c, (es + [e])[i])) && longer[i + 1] == Next(cfg, longer[i], Run(c, (es + [e])[i]))
    {
      if i < |es| { assert longer[i] == states[i] && longer[i + 1] == states[i + 1]; }
    }
  }

  // ---------------------------------------------------------------- calls made one after another

  /** The last state of some run without overlapping calls. */
  ghost predicate SeqEnds(cfg: Config, s: State)
  {
    exists states, steps :: IsSequentialRun(cfg, states, steps) && states != [] && s == states[|states| - 1]
  }

  lemma SeqEndsNext(cfg: Config, s: State, step: Step)
    requires SeqEnds(cfg, s) && Enabled(cfg, s, step) && (step.Invoke? ==> Idle(s))
    ensures SeqEnds(cfg, Next(cfg, s, step))
  {
    hide Enabled, Next, Idle;
    var states, steps :| IsSequentialRun(cfg, states, steps) && states != [] && s == states[|states| - 1];
    var longer, more := states + [Next(cfg, s, step)], steps + [step];
    forall i | 0 <= i < |more|
      ensures Enabled(cfg, longer[i], more[i]) && longer[i + 1] == Next(cfg, longer[i], more[i])
      ensures more[i].Invoke? ==> Idle(longer[i])
    {
      if i < |steps| { assert longer[i] == states[i] && longer[i + 1] == states[i + 1] && more[i] == steps[i]; }
    }
    assert IsSequentialRun(cfg, longer, more) && Next(cfg, s, step) == longer[|longer| - 1];
  }

  lemma {:induction false} ExecEnds(cfg: Config, s: State, c: CallId, es: seq<Env>)
    requires SeqEnds(cfg, s) && c in s.calls && s.lock.None? && Exec(cfg, WorldOf(s), s.calls[c], es).Some?
    ensures var (w, g) := Exec(cfg, WorldOf(s), s.calls[c], es).value;
            exists t :: SeqEnds(cfg, t) && Matches(s, t, c, w, g)
  {
    hide Ready, Advance, Shown, Holds, Waits, SeqEnds;
    if es == [] {
      assert Matches(s, s, c, WorldOf(s), s.calls[c]);
    } else {
      var e, before := es[|es| - 1], es[..|es| - 1];
      ExecEnds(cfg, s, c, before);
      var (w, g) := Exec(cfg, WorldOf(s), s.calls[c], before).value;
      var t :| SeqEnds(cfg, t) && Matches(s, t, c, w, g);
      NeverWaitsLocked(g);
      assert Enabled(cfg, t, Run(c, e));
      var u := Next(cfg, t, Run(c, e));
      SeqEndsNext(cfg, t, Run(c, e));
      LockStays(cfg, t, c, e);
      assert Matches(s, u, c, WorldOf(u), u.calls[c]);
    }
  }

  lemma FreshCall(calls: map<CallId, Frame>) returns (c: CallId)
    ensures c !in calls
  {
    c := FreshId(calls.Keys);
  }

  lemma {:induction false} FreshId(ids: set<CallId>) returns (c: CallId)
    ensures forall d :: d in ids ==> d < c
  {
    if ids == {} {
      c := 0;
    } else {
      var d :| d in ids;
      var b := FreshId(ids - {d});
      c := if b > d then b else d + 1;
      assert forall e :: e in ids ==> e == d || e in ids - {d};
    }
  }

  lemma IdleUnlocked(cfg: Config, s: State)
    requires Inv(cfg, s) && Idle(s)
    ensures s.lock.None?
  {
    hide WorldOk, FramesOk;
  }

  lemma BetweenEnds(cfg: Config, s: State)
    ensures Between(cfg, s) <==> SeqEnds(cfg, s) && Idle(s)
  {
    hide IsSequentialRun, Idle;
    if Between(cfg, s) {
      var states, steps :| IsSequentialRun(cfg, states, steps) && states != [] && s == states[|states| - 1] && Idle(s);
      assert SeqEnds(cfg, s);
    }
    if SeqEnds(cfg, s) && Idle(s) {
      var states, steps :| IsSequentialRun(cfg, states, steps) && states != [] && s == states[|states| - 1];
      assert Between(cfg, s);
    }
  }

  /** A call made alone between calls ends between calls: its end is that of a run. */
  lemma BetweenCalled(cfg: Config, s: State, cmd: Command, w: World, out: Outcome) returns (t: State)
    requires Between(cfg, s) && Called(cfg, WorldOf(s), cmd, w, out)
    ensures Between(cfg, t) && WorldOf(t) == w
  {
    hide Between, Inv, Fact, Exec, SeqEnds;
    BetweenEnds(cfg, s);
    BetweenFact(cfg, s);
    IdleUnlocked(cfg, s);
    var es :| Exec(cfg, WorldOf(s), Open(Start(cmd)), es) == Some((w, Returned(out)));
    var c := FreshCall(s.calls);
    SeqEndsNext(cfg, s, Invoke(c, cmd));
    var r := s.(calls := s.calls[c := Open(Start(cmd))]);
    ExecEnds(cfg, r, c, es);
    t :| SeqEnds(cfg, t) && Matches(r, t, c, w, Returned(out));
    BetweenEnds(cfg, t);
  }

  lemma BetweenTicks(cfg: Config, s: State, to: Time)
    requires Between(cfg, s) && s.now <= to
    ensures Between(cfg, s.(now := to))
  {
    hide Between, SeqEnds;
    BetweenEnds(cfg, s);
    SeqEndsNext(cfg, s, Tick(to));
    BetweenEnds(cfg, s.(now := to));
  }

  lemma BetweenStarts(cfg: Config, now: Time, cluster: Cluster)
    ensures Between(cfg, Init(now, cluster))
  {
    var s := Init(now, cluster);
    var states: seq<State>, steps: seq<Step> := [s], [];
    assert IsSequentialRun(cfg, states, steps) && s == states[|states| - 1] && Idle(s);
  }
}
