/** A run's results are what its passes harvested, and so is its verdict. */
module RunLog {
  import opened Base
  import opened Verdict
  import opened Soak
  import opened Attempts
  import opened AttemptHistory
  import opened AttemptVerdict
  import opened Checkpoints
  import opened Execution
  import opened ExecutionFacts
  import opened SweepFacts
  import opened Interlock
  import opened SweepOutcome
  import opened RunProtocol
  import opened RunInvariant
  import opened RunLaws
  import opened RunEnd

  // ---------------------------------------------------------------- a sweep's log

  /** Every result a sweep changed is the old one after the events logged for it; no other changed. */
  ghost predicate LogOk(plan: Plan, a: map<Unit, Result>, results: map<Unit, Result>, log: map<Unit, seq<Event>>) {
    && (forall u :: u in log ==> MadeBy(plan, a, results, u, log[u]))
    && (forall u :: u !in log && u.nodes != [] ==> (u in results <==> u in a) && (u in a ==> results[u] == a[u]))
  }

  ghost predicate MadeBy(plan: Plan, a: map<Unit, Result>, results: map<Unit, Result>, u: Unit, es: seq<Event>) {
    && u.test < |plan.tests| && u.nodes != [] && u in results && Undisturbed(es)
    && results[u] == AttemptHistory.After(plan.rules, plan.tests[u.test].test, Get(plan, a, u), es)
  }

  lemma AfterSnoc(rules: Rules, test: Test, r: Result, es: seq<Event>, e: Event)
    ensures AttemptHistory.After(rules, test, r, es + [e]) == Step(rules, test, AttemptHistory.After(rules, test, r, es), e)
  {
    hide Step;
    assert (es + [e])[..|es|] == es;
  }

  lemma {:induction false} AfterConcat(rules: Rules, test: Test, r: Result, es: seq<Event>, fs: seq<Event>)
    ensures AttemptHistory.After(rules, test, r, es + fs) == AttemptHistory.After(rules, test, AttemptHistory.After(rules, test, r, es), fs)
    decreases |fs|
  {
    hide Step;
    if fs == [] {
      assert es + fs == es;
    } else {
      var n := |fs| - 1;
      AfterConcat(rules, test, r, es, fs[..n]);
      assert es + fs == (es + fs[..n]) + [fs[n]] && fs == fs[..n] + [fs[n]];
      AfterSnoc(rules, test, r, es + fs[..n], fs[n]);
    }
  }

  lemma PlayedLogs(plan: Plan, env: Env, a: map<Unit, Result>, s: Sweep, u: Unit, e: Event)
    requires u.test < |plan.tests| && u.nodes != [] && (e.Begin? || e.Sample? || e.Finish?) && LogOk(plan, a, s.results, s.log)
    ensures var t := Played(plan, env, s, u, e); LogOk(plan, a, t.results, t.log)
  {
    hide Step, New, LogOk, Get, AttemptHistory.After;
    var es, test := Logged(s.log, u), plan.tests[u.test].test;
    LogGet(plan, a, s.results, s.log, u);
    AfterSnoc(plan.rules, test, Get(plan, a, u), es, e);
    assert Undisturbed(es + [e]);
    LogPut(plan, a, s.results, s.log, u, Step(plan.rules, test, Get(plan, s.results, u), e), es + [e]);
  }

  lemma LogGet(plan: Plan, a: map<Unit, Result>, results: map<Unit, Result>, log: map<Unit, seq<Event>>, u: Unit)
    requires u.test < |plan.tests| && u.nodes != [] && LogOk(plan, a, results, log)
    ensures Undisturbed(Logged(log, u))
    ensures Get(plan, results, u) == AttemptHistory.After(plan.rules, plan.tests[u.test].test, Get(plan, a, u), Logged(log, u))
  {
    hide New, Step;
    if u in log { assert MadeBy(plan, a, results, u, log[u]); }
  }

  lemma LogPut(plan: Plan, a: map<Unit, Result>, results: map<Unit, Result>, log: map<Unit, seq<Event>>, u: Unit, r: Result, es: seq<Event>)
    requires u.test < |plan.tests| && u.nodes != [] && LogOk(plan, a, results, log) && Undisturbed(es)
    requires r == AttemptHistory.After(plan.rules, plan.tests[u.test].test, Get(plan, a, u), es)
    ensures LogOk(plan, a, results[u := r], log[u := es])
  {
    hide New, Step, AttemptHistory.After, Get, Undisturbed;
    var results', log' := results[u := r], log[u := es];
    forall v | v in log' ensures MadeBy(plan, a, results', v, log'[v]) {
      if v != u { assert MadeBy(plan, a, results, v, log[v]); }
    }
  }

  lemma FinishedLogs(plan: Plan, env: Env, a: map<Unit, Result>, s: Sweep, u: Unit, parsed: Parsed)
    requires u.test < |plan.tests| && u.nodes != [] && LogOk(plan, a, s.results, s.log)
    ensures var t := Finished(plan, env, s, u, parsed); LogOk(plan, a, t.results, t.log)
  {
    hide LogOk, Played;
    PlayedLogs(plan, env, a, s, u, Finish(parsed, env.limit));
  }

  lemma WatchedLogs(plan: Plan, env: Env, a: map<Unit, Result>, s: Sweep, u: Unit, id: PodId)
    requires u.test < |plan.tests| && u.nodes != [] && LogOk(plan, a, s.results, s.log)
    ensures var t := Watched(plan, env, s, u, id); LogOk(plan, a, t.results, t.log)
  {
    hide LogOk, Played;
    PlayedLogs(plan, env, a, s, u, Begin);
    if env.sample(id).Some? {
      PlayedLogs(plan, env, a, Played(plan, env, s, u, Begin), u, Sample(env.now, env.sample(id).value));
    }
  }

  lemma {:induction false} RestLogs(plan: Plan, env: Env, a: map<Unit, Result>, s: Sweep, u: Unit, attempt: int, rank: nat)
    requires u.test < |plan.tests| && u.nodes != [] && LogOk(plan, a, s.results, s.log)
    ensures var t := CreateRest(plan, env, s, u, attempt, rank); LogOk(plan, a, t.results, t.log)
    decreases |u.nodes| - rank
  {
    hide LogOk, Finished;
    FinishedLogs(plan, env, a, s, u, MACHINERY_ERROR);
    if rank < |u.nodes| {
      RestLogs(plan, env, a, s, u, attempt, rank + 1);
      RestLogs(plan, env, a, s.(pods := s.pods[RankId(u, rank, attempt) := NEW_POD]), u, attempt, rank + 1);
    }
  }

  lemma NodeLogs(plan: Plan, env: Env, a: map<Unit, Result>, s: Sweep, u: Unit)
    requires u.test < |plan.tests| && |u.nodes| == 1 && LogOk(plan, a, s.results, s.log)
    ensures var t := AdvanceNode(plan, env, s, u); LogOk(plan, a, t.results, t.log)
  {
    hide LogOk, StartNode, WatchNode, Current;
    var id := PodId(u, 0, Current(plan, s.results, u));
    if id in s.pods { WatchNodeLogs(plan, env, a, s, u, id, s.pods[id]); } else { StartNodeLogs(plan, env, a, s, u, id); }
  }

  lemma WatchNodeLogs(plan: Plan, env: Env, a: map<Unit, Result>, s: Sweep, u: Unit, id: PodId, pod: Pod)
    requires u.test < |plan.tests| && |u.nodes| == 1 && LogOk(plan, a, s.results, s.log)
    ensures var t := WatchNode(plan, env, s, u, id, pod); LogOk(plan, a, t.results, t.log)
  {
    hide LogOk, Finished, Watched, LogRule;
    var t := if pod.Live() then s.(busy := s.busy + {u.nodes[0]}) else s;
    FinishedLogs(plan, env, a, t, u, LogRule(plan.tests[u.test].test, env.report(id)));
    FinishedLogs(plan, env, a, t.(kill := t.kill + {id}), u, MACHINERY_ERROR);
    WatchedLogs(plan, env, a, t, u, id);
  }

  lemma StartNodeLogs(plan: Plan, env: Env, a: map<Unit, Result>, s: Sweep, u: Unit, id: PodId)
    requires u.test < |plan.tests| && |u.nodes| == 1 && LogOk(plan, a, s.results, s.log)
    ensures var t := StartNode(plan, env, s, u, id); LogOk(plan, a, t.results, t.log)
  {
    hide LogOk, Finished, LaunchNode;
    FinishedLogs(plan, env, a, s, u, MACHINERY_ERROR);
  }

  lemma StartLogs(plan: Plan, env: Env, a: map<Unit, Result>, s: Sweep, u: Unit)
    requires u.test < |plan.tests| && u.nodes != [] && LogOk(plan, a, s.results, s.log)
    ensures var t := StartUnit(plan, env, s, u); LogOk(plan, a, t.results, t.log)
  {
    hide LogOk, Finished, Current, LaunchUnit, NodeSet;
    FinishedLogs(plan, env, a, s, u, MACHINERY_ERROR);
  }

  lemma GateLogs(plan: Plan, env: Env, a: map<Unit, Result>, s: Sweep, u: Unit)
    requires u.test < |plan.tests| && u.nodes != [] && LogOk(plan, a, s.results, s.log)
    requires RankId(u, 0, Current(plan, s.results, u)) in s.pods
    ensures var t := GateUnit(plan, env, s, u); LogOk(plan, a, t.results, t.log)
  {
    hide LogOk, Finished, CreateRest, CombinePair, AttemptPods, Played, Current;
    var n := Current(plan, s.results, u);
    var id := RankId(u, 0, n);
    var kill := s.(kill := s.kill + AttemptPods(s.pods, u, n));
    FinishedLogs(plan, env, a, s, u, CombinePair(plan.tests[u.test].test, Some(env.report(id).parsed), None, env.report(id).logLost));
    FinishedLogs(plan, env, a, kill, u, env.collective(u));
    FinishedLogs(plan, env, a, kill, u, MACHINERY_ERROR);
    PlayedLogs(plan, env, a, s, u, Begin);
    RestLogs(plan, env, a, Played(plan, env, s, u, Begin), u, n, 1);
  }

  lemma PairLogs(plan: Plan, env: Env, a: map<Unit, Result>, s: Sweep, u: Unit)
    requires u.test < |plan.tests| && u.nodes != [] && LogOk(plan, a, s.results, s.log)
    requires forall rank: nat :: rank < 2 ==> RankId(u, rank, Current(plan, s.results, u)) in s.pods
    ensures var t := HarvestPair(plan, env, s, u); LogOk(plan, a, t.results, t.log)
  {
    hide LogOk, Finished, Watched, CombinePair, Current;
    var n := Current(plan, s.results, u);
    var server, client := RankId(u, 0, n), RankId(u, 1, n);
    var test := plan.tests[u.test].test;
    var h, g := env.report(client), env.report(server);
    FinishedLogs(plan, env, a, s.(kill := s.kill + {server, client}), u, MACHINERY_ERROR);
    WatchedLogs(plan, env, a, s, u, client);
    FinishedLogs(plan, env, a, s, u, CombinePair(test, Some(g.parsed), Some(h.parsed), h.logLost || g.logLost));
    FinishedLogs(plan, env, a, s.(kill := s.kill + {server}), u, CombinePair(test, None, Some(h.parsed), h.logLost));
  }

  lemma GroupLogs(plan: Plan, env: Env, a: map<Unit, Result>, s: Sweep, u: Unit)
    requires u.test < |plan.tests| && u.nodes != [] && LogOk(plan, a, s.results, s.log)
    ensures var t := HarvestGroup(plan, env, s, u); LogOk(plan, a, t.results, t.log)
  {
    hide LogOk, Finished, Watched, Current;
    var n := Current(plan, s.results, u);
    FinishedLogs(plan, env, a, s.(kill := s.kill + AttemptPods(s.pods, u, n)), u, MACHINERY_ERROR);
    WatchedLogs(plan, env, a, s, u, RankId(u, 0, n));
    FinishedLogs(plan, env, a, s, u, env.collective(u));
    hide AttemptPods;
  }

  lemma AdvanceLogs(plan: Plan, env: Env, a: map<Unit, Result>, s: Sweep, u: Unit)
    requires UnitOk(plan, u) && LogOk(plan, a, s.results, s.log)
    ensures var t := Advance(plan, env, s, u); LogOk(plan, a, t.results, t.log)
  {
    hide LogOk, AdvanceNode, GateUnit, HarvestPair, HarvestGroup, StartUnit, Complete, AnyLive, NodeSet, Current;
    if !Over(s.results, u) {
      if Gang(plan, u.test) {
        var t := Claimed(plan, s, u);
        var n := Current(plan, s.results, u);
        if RankId(u, 0, n) !in s.pods {
          StartLogs(plan, env, a, t, u);
        } else if !Complete(s.pods, u, n) {
          GateLogs(plan, env, a, t, u);
        } else if plan.tests[u.test].scope.PairScope? {
          CompletePair(s.pods, u, n);
          PairLogs(plan, env, a, t, u);
        } else {
          GroupLogs(plan, env, a, t, u);
        }
      } else {
        NodeLogs(plan, env, a, s, u);
      }
    }
  }

  lemma {:induction false} UnitsLogs(plan: Plan, env: Env, a: map<Unit, Result>, s: Sweep, units: seq<Unit>)
    requires (forall k :: 0 <= k < |units| ==> UnitOk(plan, units[k])) && LogOk(plan, a, s.results, s.log)
    ensures var t := SweepUnits(plan, env, s, units); LogOk(plan, a, t.results, t.log)
    decreases |units|
  {
    hide LogOk, Advance, UnitOk;
    if units != [] && s.ok {
      AdvanceLogs(plan, env, a, s, units[0]);
      UnitsLogs(plan, env, a, Advance(plan, env, s, units[0]), units[1..]);
    }
  }

  lemma {:induction false} TestsLogs(plan: Plan, env: Env, a: map<Unit, Result>, s: Sweep, i: nat)
    requires PlanOk(plan) && LogOk(plan, a, s.results, s.log)
    ensures var t := SweepTests(plan, env, s, i); LogOk(plan, a, t.results, t.log)
    decreases |plan.tests| - i
  {
    hide LogOk, SweepUnits, RequiredPhase;
    if i < |plan.tests| && !(plan.failFast && RequiredPhase(plan, s.results, Failed)) {
      if plan.tests[i].scope.OtherScope? {
        UnknownLogs(plan, a, s, i);
        TestsLogs(plan, env, a, SettleUnknown(plan, s, i), i + 1);
      } else {
        UnitsOk(plan, i);
        UnitsLogs(plan, env, a, s, Units(plan, i));
        TestsLogs(plan, env, a, SweepUnits(plan, env, s, Units(plan, i)), i + 1);
      }
    }
  }

  lemma UnknownLogs(plan: Plan, a: map<Unit, Result>, s: Sweep, i: nat)
    requires i < |plan.tests| && LogOk(plan, a, s.results, s.log)
    ensures var t := SettleUnknown(plan, s, i); LogOk(plan, a, t.results, t.log)
  {
    hide LogOk, New, Cut;
    LogAside(plan, a, s.results, s.log, Unit(i, []), Cut(New(plan.tests[i].test)));
  }

  /** A result without nodes is nobody's harvest. */
  lemma LogAside(plan: Plan, a: map<Unit, Result>, results: map<Unit, Result>, log: map<Unit, seq<Event>>, v: Unit, r: Result)
    requires LogOk(plan, a, results, log) && v.nodes == []
    ensures LogOk(plan, a, results[v := r], log)
  {
    hide New, Step, AttemptHistory.After, Get, Undisturbed;
    forall u | u in log ensures MadeBy(plan, a, results[v := r], u, log[u]) { assert MadeBy(plan, a, results, u, log[u]); }
  }

  // ---------------------------------------------------------------- a run's log

  /** Every durable result is what the events durably logged for it made of a new one. */
  ghost predicate Derived(plan: Plan, results: map<Unit, Result>, log: map<Unit, seq<Event>>) {
    LogOk(plan, map[], results, log)
  }

  lemma ExtendedDerived(plan: Plan, a: map<Unit, Result>, log: map<Unit, seq<Event>>, b: map<Unit, Result>, more: map<Unit, seq<Event>>)
    requires Derived(plan, a, log) && LogOk(plan, a, b, more) && a.Keys <= b.Keys
    ensures Derived(plan, b, Extended(log, more))
  {
    var all := Extended(log, more);
    forall u | u in all ensures MadeBy(plan, map[], b, u, all[u]) {
      if u in more {
        assert MadeBy(plan, a, b, u, more[u]);
        ExtendedOne(plan, a, log, b, u, more[u]);
      } else {
        assert MadeBy(plan, map[], a, u, log[u]);
        LoggedHasNodes(plan, a, log, b, more, u);
        assert all[u] == log[u] + [] == log[u];
      }
    }
  }

  lemma LoggedHasNodes(plan: Plan, a: map<Unit, Result>, log: map<Unit, seq<Event>>, b: map<Unit, Result>, more: map<Unit, seq<Event>>, u: Unit)
    requires Derived(plan, a, log) && LogOk(plan, a, b, more) && a.Keys <= b.Keys && u in log && u !in more
    ensures b[u] == a[u]
  {
  }

  lemma ExtendedOne(plan: Plan, a: map<Unit, Result>, log: map<Unit, seq<Event>>, b: map<Unit, Result>, u: Unit, es: seq<Event>)
    requires Derived(plan, a, log) && MadeBy(plan, a, b, u, es)
    ensures MadeBy(plan, map[], b, u, Logged(log, u) + es)
  {
    var test := plan.tests[u.test].test;
    AfterConcat(plan.rules, test, New(test), Logged(log, u), es);
    if u in log { assert MadeBy(plan, map[], a, u, log[u]); }
    hide Step, New;
    assert Get(plan, a, u) == AttemptHistory.After(plan.rules, test, New(test), Logged(log, u));
  }

  // ---------------------------------------------------------------- every step keeps it

  /** A required pass has its grounds in the log. */
  ghost predicate Grounded(plan: Plan, results: map<Unit, Result>, log: map<Unit, seq<Event>>) {
    forall u :: u in results && UnitOk(plan, u) && results[u].phase.Passed? ==> HasGrounds(plan, log, u)
  }

  ghost predicate HasGrounds(plan: Plan, log: map<Unit, seq<Event>>, u: Unit) {
    && u.test < |plan.tests| && u in log
    && exists k :: 0 <= k <= |log[u]| && Grounds(plan.rules, plan.tests[u.test].test, Outcomes(log[u][..k]))
  }

  ghost predicate LogInv(plan: Plan, st: State) {
    if st.phase.Terminal() then st.phase.Passed? ==> Grounded(plan, st.results, st.log)
    else Derived(plan, st.results, st.log)
  }

  lemma DerivedGrounds(plan: Plan, results: map<Unit, Result>, log: map<Unit, seq<Event>>, u: Unit)
    requires Derived(plan, results, log) && u in results && UnitOk(plan, u) && results[u].phase.Passed?
    ensures HasGrounds(plan, log, u)
  {
    assert u.nodes != [];
    assert u in log && MadeBy(plan, map[], results, u, log[u]);
    hide Derived, Step, New, Grounds;
    var k := PassedHasGrounds(plan.rules, plan.tests[u.test].test, log[u]);
  }

  lemma CutGrounded(plan: Plan, results: map<Unit, Result>, log: map<Unit, seq<Event>>)
    requires Derived(plan, results, log)
    ensures Grounded(plan, CutAll(results), log)
  {
    forall u | u in CutAll(results) && UnitOk(plan, u) && CutAll(results)[u].phase.Passed? ensures HasGrounds(plan, log, u) {
      hide Derived, HasGrounds, UnitOk;
      DerivedGrounds(plan, results, log, u);
    }
  }

  lemma SweepDerived(plan: Plan, st: State, env: Env)
    requires PlanOk(plan) && Inv(plan, st) && Stepping(st) && LogInv(plan, st)
    ensures var s := Sweeping(plan, st, env); Derived(plan, s.results, Extended(st.log, s.log))
  {
    hide LogOk, Derived, Extended, Execute;
    var s := Sweeping(plan, st, env);
    SweepLogs(plan, env, st.results, st.pods, st.stamped);
    SweepGrows(plan, st, env);
    ExtendedDerived(plan, st.results, st.log, s.results, s.log);
  }

  lemma SweepLogs(plan: Plan, env: Env, a: map<Unit, Result>, pods: map<PodId, Pod>, stamped: set<string>)
    requires PlanOk(plan)
    ensures var s := Execute(plan, env, a, pods, stamped); LogOk(plan, a, s.results, s.log)
  {
    var seed := Seeded(a, pods, stamped);
    assert LogOk(plan, a, seed.results, seed.log);
    hide LogOk, SweepTests;
    TestsLogs(plan, env, a, seed, 0);
  }

  lemma SweepGrows(plan: Plan, st: State, env: Env)
    requires PlanOk(plan) && Inv(plan, st) && Stepping(st)
    ensures st.results.Keys <= Sweeping(plan, st, env).results.Keys
  {
    assert Sound(plan, st.results, st.pods);
    SweptFromState(plan, st, env);
    hide Sweeping, Execute, Inv, Sound, Spawned, Condemns, GangKept, LiveNodes, Holding;
  }

  lemma StepDerived(plan: Plan, st: State, a: Action)
    requires PlanOk(plan) && Inv(plan, st) && Enabled(plan, st, a) && LogInv(plan, st)
    ensures LogInv(plan, Apply(plan, st, a))
  {
    hide Inv, Derived, Grounded, Conceded, Extended, Free, LoadOffFirst, CutAll, SettleRemaining, LivePods, RequiredPhase;
    match a
    case Pass(env, commit, kills, released) =>
      SweepDerived(plan, st, env);
      var s := Sweeping(plan, st, env);
      CutGrounded(plan, s.results, Extended(st.log, s.log));
      hide Sweeping;
    case Drain(env, immediate, dirty, commit, kills, released) =>
      SweepDerived(plan, st, env);
      hide Sweeping;
    case _ =>
  }

  lemma {:induction false} TraceDerived(plan: Plan, st: State, trace: seq<Action>)
    requires PlanOk(plan) && Inv(plan, st) && LogInv(plan, st) && Possible(plan, st, trace)
    ensures LogInv(plan, RunProtocol.After(plan, st, trace))
    decreases |trace|
  {
    if trace != [] {
      hide Inv, LogInv, Enabled, Apply;
      RunInvariant.StepKeeps(plan, st, trace[0]);
      StepDerived(plan, st, trace[0]);
      TraceDerived(plan, Apply(plan, st, trace[0]), trace[1..]);
    }
  }

  /**
    While a run is open every result is exactly what the outcomes its passes harvested and
    durably recorded make of it. A run that ends Passed has, for every verdict a required
    test owes, a skip, or a pass whose recorded outcomes cleared every gate: each required
    execution by itself, or enough windows to cover the duration together.
  */
  lemma PassedRestsOnHarvests(plan: Plan, existing: set<string>, trace: seq<Action>)
    requires PlanOk(plan) && Possible(plan, Begun(existing), trace)
    ensures var st := RunProtocol.After(plan, Begun(existing), trace);
            && (!st.phase.Terminal() ==> Derived(plan, st.results, st.log))
            && (st.phase.Passed? ==>
                  forall u :: UnitOk(plan, u) && plan.tests[u.test].required ==>
                    u in st.results && (st.results[u].phase.Skipped? || (st.results[u].phase.Passed? && HasGrounds(plan, st.log, u))))
  {
    BegunInv(plan, existing);
    TraceKeeps(plan, Begun(existing), trace);
    TraceDerived(plan, Begun(existing), trace);
    var st := RunProtocol.After(plan, Begun(existing), trace);
    hide RunProtocol.After, Possible, Derived;
    if st.phase.Passed? {
      forall u | UnitOk(plan, u) && plan.tests[u.test].required
        ensures u in st.results && (st.results[u].phase.Skipped? || (st.results[u].phase.Passed? && HasGrounds(plan, st.log, u)))
      {
        hide Accepted, UnitOk, HasGrounds;
        UnitOfAccepted(plan, st.results, u);
      }
    }
  }
}
