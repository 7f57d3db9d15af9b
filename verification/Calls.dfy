/** Calls made alone, followed forward from their first step: what the running call does
    next, until it hands out its answer. */
module Calls {
  import opened Options
  import opened Domain
  import opened Tables
  import opened Protocol
  import opened Safety
  import opened Interleaving
  import opened Runs
  import opened EventLog
  import opened MethodGrain
  import opened Sequential
  import opened RunningAlone

  /** What one call is told from outside the tables: the chain's answer to each attempt;
      whether a payment's terms can be built, to issue a request or to check a landed
      transaction against; and the trade an offer makes, if it makes one. */
  datatype Outside = Outside(answer: nat -> Answer, terms: bool, draft: Option<Trade>)

  /** Nothing is said of the outside unless it is given. */
  predicate Heard(given: Option<Outside>, f: Frame, e: Env)
  {
    match f
    case Open(Start(Create(_, _, _))) => given.Some? ==> e.draft == given.value.draft
    case Leave(Spending(_, _, build)) => given.Some? && build ==> e.ok == given.value.terms
    case Settle(Fetching(_, _, _, _, attempt)) =>
      given.Some? ==> e.answer == given.value.answer(attempt) && e.ok == given.value.terms
    case Settle(Refetching(_, _, _, _, _)) => given.Some? ==> e.answer == given.value.answer(1) && e.ok == given.value.terms
    case _ => true
  }

  /** From here the call takes these steps, is told this, and ends there. */
  ghost predicate Ends(cfg: Config, given: Option<Outside>, v: World, f: Frame, es: seq<Env>, w: World, out: Outcome)
    decreases |es|
  {
    if f.Returned? then es == [] && w == v && f.out == out
    else
      && es != [] && Ready(cfg, v.db, v.now, f, es[0]) && Heard(given, f, es[0])
      && var r := Advance(cfg, v.db, v.now, v.cluster, f, es[0]);
         Ends(cfg, given, After(v, r, Shown(f, es[0])), r.frame, es[1..], w, out)
  }

  ghost predicate Leads(cfg: Config, given: Option<Outside>, v: World, f: Frame, w: World, out: Outcome)
  {
    exists es :: Ends(cfg, given, v, f, es, w, out)
  }

  /** A call made alone that is told this. */
  ghost predicate CalledOn(cfg: Config, given: Option<Outside>, v: World, cmd: Command, w: World, out: Outcome)
  {
    Leads(cfg, given, v, Open(Start(cmd)), w, out)
  }

  /** The running call's next step. */
  lemma LeadsNext(cfg: Config, given: Option<Outside>, v: World, f: Frame, w: World, out: Outcome) returns (e: Env)
    requires Leads(cfg, given, v, f, w, out) && !f.Returned?
    ensures Ready(cfg, v.db, v.now, f, e) && Heard(given, f, e)
    ensures var r := Advance(cfg, v.db, v.now, v.cluster, f, e);
            Leads(cfg, given, After(v, r, Shown(f, e)), r.frame, w, out)
  {
    hide Ready, Heard, Advance, Shown;
    var es :| Ends(cfg, given, v, f, es, w, out);
    e := es[0];
    var r := Advance(cfg, v.db, v.now, v.cluster, f, e);
    assert Ends(cfg, given, After(v, r, Shown(f, e)), r.frame, es[1..], w, out);
  }

  lemma LeadsBack(cfg: Config, given: Option<Outside>, v: World, f: Frame, e: Env, w: World, out: Outcome)
    requires !f.Returned? && Ready(cfg, v.db, v.now, f, e) && Heard(given, f, e)
    requires var r := Advance(cfg, v.db, v.now, v.cluster, f, e);
             Leads(cfg, given, After(v, r, Shown(f, e)), r.frame, w, out)
    ensures Leads(cfg, given, v, f, w, out)
  {
    hide Ready, Heard, Advance, Shown;
    var r := Advance(cfg, v.db, v.now, v.cluster, f, e);
    var es :| Ends(cfg, given, After(v, r, Shown(f, e)), r.frame, es, w, out);
    assert ([e] + es)[1..] == es;
    assert Ends(cfg, given, v, f, [e] + es, w, out);
  }

  lemma LeadsEnd(cfg: Config, given: Option<Outside>, v: World, f: Frame, w: World, out: Outcome)
    requires f.Returned?
    ensures Leads(cfg, given, v, f, w, out) <==> w == v && out == f.out
  {
    if w == v && out == f.out { assert Ends(cfg, given, v, f, [], w, out); }
  }

  // ---------------------------------------------------------------- the same calls, either way round

  lemma {:induction false} ExecJoins(cfg: Config, v: World, f: Frame, e: Env, es: seq<Env>)
    requires !f.Returned? && Ready(cfg, v.db, v.now, f, e)
    ensures var r := Advance(cfg, v.db, v.now, v.cluster, f, e);
            Exec(cfg, v, f, [e] + es) == Exec(cfg, After(v, r, Shown(f, e)), r.frame, es)
    decreases |es|
  {
    hide Ready, Advance, Shown;
    if es == [] {
      assert [e] + es == [] + [e];
      assert Exec(cfg, v, f, []) == Some((v, f));
      ExecStep(cfg, v, f, [], v, f, e);
    } else {
      ExecJoins(cfg, v, f, e, es[..|es| - 1]);
      assert ([e] + es)[..|es|] == [e] + es[..|es| - 1];
    }
  }

  lemma {:induction false} EndsIsExec(cfg: Config, given: Option<Outside>, v: World, f: Frame, es: seq<Env>, w: World, out: Outcome)
    requires Ends(cfg, given, v, f, es, w, out)
    ensures Exec(cfg, v, f, es) == Some((w, Returned(out)))
    decreases |es|
  {
    hide Ready, Heard, Advance, Shown, Exec;
    if f.Returned? {
      ExecNothing(cfg, v, f);
    } else {
      var r := Advance(cfg, v.db, v.now, v.cluster, f, es[0]);
      EndsIsExec(cfg, given, After(v, r, Shown(f, es[0])), r.frame, es[1..], w, out);
      ExecJoins(cfg, v, f, es[0], es[1..]);
      assert [es[0]] + es[1..] == es;
    }
  }

  lemma ExecNothing(cfg: Config, v: World, f: Frame)
    ensures Exec(cfg, v, f, []) == Some((v, f))
  {
  }

  lemma {:induction false} ExecFirst(cfg: Config, v: World, f: Frame, es: seq<Env>)
    requires es != [] && Exec(cfg, v, f, es).Some?
    ensures !f.Returned? && Ready(cfg, v.db, v.now, f, es[0])
    ensures var r := Advance(cfg, v.db, v.now, v.cluster, f, es[0]);
            Exec(cfg, v, f, es) == Exec(cfg, After(v, r, Shown(f, es[0])), r.frame, es[1..])
    decreases |es|
  {
    hide Ready, Advance, Shown;
    var before := es[..|es| - 1];
    if before == [] {
      assert es[1..] == [] && Exec(cfg, v, f, before) == Some((v, f));
    } else {
      ExecFirst(cfg, v, f, before);
      assert before[1..] == es[1..][..|es| - 2] && before[0] == es[0];
    }
  }

  lemma {:induction false} ExecIsEnds(cfg: Config, v: World, f: Frame, es: seq<Env>, w: World, out: Outcome)
    requires Exec(cfg, v, f, es) == Some((w, Returned(out)))
    ensures Ends(cfg, None, v, f, es, w, out)
    decreases |es|
  {
    hide Ready, Advance, Shown, Exec;
    if es == [] {
      ExecNothing(cfg, v, f);
    } else {
      ExecFirst(cfg, v, f, es);
      var r := Advance(cfg, v.db, v.now, v.cluster, f, es[0]);
      ExecIsEnds(cfg, After(v, r, Shown(f, es[0])), r.frame, es[1..], w, out);
      HearsAnything(f, es[0]);
      hide Heard;
    }
  }

  lemma HearsAnything(f: Frame, e: Env)
    ensures Heard(None, f, e)
  {
  }

  /** With nothing said of the outside this is any call made alone. */
  lemma CalledIsLeads(cfg: Config, given: Option<Outside>, v: World, cmd: Command, w: World, out: Outcome)
    ensures CalledOn(cfg, given, v, cmd, w, out) ==> Called(cfg, v, cmd, w, out)
    ensures Called(cfg, v, cmd, w, out) <==> CalledOn(cfg, None, v, cmd, w, out)
  {
    hide Ends, Exec;
    var f := Open(Start(cmd));
    forall c, es | Ends(cfg, c, v, f, es, w, out) ensures Exec(cfg, v, f, es) == Some((w, Returned(out))) {
      EndsIsExec(cfg, c, v, f, es, w, out);
    }
    forall es | Exec(cfg, v, f, es) == Some((w, Returned(out))) ensures Ends(cfg, None, v, f, es, w, out) {
      ExecIsEnds(cfg, v, f, es, w, out);
    }
  }

  // ---------------------------------------------------------------- as the steps are taken

  /** Every step so far was told what the outside says. */
  ghost predicate Told(cfg: Config, given: Option<Outside>, v: World, f: Frame, es: seq<Env>)
  {
    es == []
    || (var before := es[..|es| - 1];
        Told(cfg, given, v, f, before) && Exec(cfg, v, f, before).Some? && Heard(given, Exec(cfg, v, f, before).value.1, es[|es| - 1]))
  }

  lemma ToldStep(cfg: Config, given: Option<Outside>, v: World, f: Frame, es: seq<Env>, w: World, g: Frame, e: Env)
    requires Told(cfg, given, v, f, es) && Exec(cfg, v, f, es) == Some((w, g)) && Heard(given, g, e)
    ensures Told(cfg, given, v, f, es + [e])
  {
    hide Heard, Exec;
    assert (es + [e])[..|es|] == es;
  }

  lemma {:induction false} ToldFirst(cfg: Config, given: Option<Outside>, v: World, f: Frame, es: seq<Env>)
    requires es != [] && Exec(cfg, v, f, es).Some? && Told(cfg, given, v, f, es)
    ensures !f.Returned? && Ready(cfg, v.db, v.now, f, es[0]) && Heard(given, f, es[0])
    ensures var r := Advance(cfg, v.db, v.now, v.cluster, f, es[0]);
            Told(cfg, given, After(v, r, Shown(f, es[0])), r.frame, es[1..])
    decreases |es|
  {
    hide Ready, Advance, Shown, Heard, Exec;
    ExecFirst(cfg, v, f, es);
    var before := es[..|es| - 1];
    if before == [] {
      ExecNothing(cfg, v, f);
      assert es[1..] == [];
    } else {
      ToldFirst(cfg, given, v, f, before);
      ExecFirst(cfg, v, f, before);
      assert es[1..][..|es| - 2] == before[1..] && before[0] == es[0];
    }
  }

  lemma {:induction false} ToldEnds(cfg: Config, given: Option<Outside>, v: World, f: Frame, es: seq<Env>, w: World, out: Outcome)
    requires Exec(cfg, v, f, es) == Some((w, Returned(out))) && Told(cfg, given, v, f, es)
    ensures Ends(cfg, given, v, f, es, w, out)
    decreases |es|
  {
    hide Ready, Advance, Shown, Exec, Heard, Told;
    if es == [] {
      ExecNothing(cfg, v, f);
    } else {
      ExecFirst(cfg, v, f, es);
      ToldFirst(cfg, given, v, f, es);
      var r := Advance(cfg, v.db, v.now, v.cluster, f, es[0]);
      ToldEnds(cfg, given, After(v, r, Shown(f, es[0])), r.frame, es[1..], w, out);
    }
  }

  /** A finished call that was told this throughout. */
  lemma ToldIsCalledOn(cfg: Config, given: Option<Outside>, v: World, cmd: Command, es: seq<Env>, w: World, out: Outcome)
    requires Exec(cfg, v, Open(Start(cmd)), es) == Some((w, Returned(out))) && Told(cfg, given, v, Open(Start(cmd)), es)
    ensures CalledOn(cfg, given, v, cmd, w, out)
  {
    hide Ends, Exec, Told;
    ToldEnds(cfg, given, v, Open(Start(cmd)), es, w, out);
  }
}
