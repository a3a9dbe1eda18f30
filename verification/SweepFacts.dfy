/** What a whole sweep may and may not do, from what its visits do. */
module SweepFacts {
  import opened Base
  import opened Verdict
  import opened Soak
  import opened Attempts
  import opened Execution
  import opened ExecutionFacts

  // ---------------------------------------------------------------- one test

  /** Settled results stay, others move forward, and only this test's move at all. */
  ghost predicate SweptResults(plan: Plan, i: nat, a: map<Unit, Result>, b: map<Unit, Result>) {
    && ResultsOk(plan, b)
    && a.Keys <= b.Keys
    && (forall v :: v in b && v.test != i ==> v in a && b[v] == a[v])
    && (forall v :: v in a && Over(a, v) ==> b[v] == a[v])
    && (forall v :: UnitOk(plan, v) ==> Current(plan, b, v) >= Current(plan, a, v))
  }

  /** Why a pod came to exist during a sweep. */
  ghost predicate NewPod(plan: Plan, env: Env, i: nat, s: Sweep, s': Sweep, id: PodId) {
    var u := id.unit;
    && env.launch
    && UnitOk(plan, u) && u.test == i && !Over(s.results, u)
    && id.rank < |u.nodes|
    && Current(plan, s.results, u) <= id.attempt <= Current(plan, s'.results, u)
    && id in s'.pods && s'.pods[id] == NEW_POD
    && NodeSet(u) <= s'.busy
    && (if id.rank == 0 then NodeSet(u) * env.claimable <= s'.stamped
        else
          var root := PodId(u, 0, id.attempt);
          root in s.pods && s.pods[root].Ready())
  }

  ghost predicate SweptPods(plan: Plan, env: Env, i: nat, s: Sweep, s': Sweep) {
    && (forall id :: id in s.pods ==> id in s'.pods && s'.pods[id] == s.pods[id])
    && (forall id :: id in s'.pods && id !in s.pods ==> NewPod(plan, env, i, s, s', id))
  }

  /** Nothing is condemned before its attempt is on record. */
  ghost predicate Condemned(plan: Plan, i: nat, s: Sweep, s': Sweep, id: PodId) {
    UnitOk(plan, id.unit) && id.unit.test == i && OnRecord(plan, s'.results, id.unit, id.attempt)
  }

  ghost predicate SweptKills(plan: Plan, i: nat, s: Sweep, s': Sweep) {
    s.kill <= s'.kill && forall id :: id in s'.kill && id !in s.kill ==> Condemned(plan, i, s, s', id)
  }

  ghost predicate SweptNodes(env: Env, s: Sweep, s': Sweep) {
    && s.busy <= s'.busy
    && s.stamped <= s'.stamped <= s.stamped + env.claimable
    && (LiveNodes(s.pods) <= s.busy ==> LiveNodes(s'.pods) <= s'.busy)
    && (s'.ok ==> s'.stamped <= s.stamped + s'.busy)
  }

  ghost predicate Swept(plan: Plan, env: Env, i: nat, s: Sweep, s': Sweep) {
    && SweptResults(plan, i, s.results, s'.results)
    && SweptPods(plan, env, i, s, s')
    && SweptKills(plan, i, s, s')
    && SweptNodes(env, s, s')
  }

  lemma SweptNothing(plan: Plan, env: Env, i: nat, s: Sweep)
    requires ResultsOk(plan, s.results)
    ensures Swept(plan, env, i, s, s)
  {
    hide Current, ResultsOk, NewPod;
  }

  lemma ResultsStep(plan: Plan, i: nat, a: map<Unit, Result>, u: Unit, b: map<Unit, Result>)
    requires ResultsOk(plan, a) && UnitOk(plan, u) && u.test == i && !Over(a, u) && Moved(plan, a, u, b)
    ensures SweptResults(plan, i, a, b)
  {
    hide ResultOk;
    forall v | v in b
      ensures v.test < |plan.tests| && ResultOk(plan.tests[v.test].test, b[v])
      ensures UnitOk(plan, v) || (v.nodes == [] && plan.tests[v.test].scope.OtherScope? && b[v].phase.Error?)
    {
      if v != u { assert v in a && b[v] == a[v]; }
    }
    forall v | UnitOk(plan, v) ensures Current(plan, b, v) >= Current(plan, a, v) {
      if v != u { assert v in a <==> v in b; }
    }
  }

  lemma ResultsTrans(plan: Plan, i: nat, a: map<Unit, Result>, b: map<Unit, Result>, c: map<Unit, Result>)
    requires SweptResults(plan, i, a, b) && SweptResults(plan, i, b, c)
    ensures SweptResults(plan, i, a, c)
  {
    hide ResultsOk, UnitOk;
    forall v | UnitOk(plan, v) ensures UnitTest(plan, v) && Current(plan, c, v) >= Current(plan, a, v) {
      assert UnitTest(plan, v) by { UnitHasTest(plan, v); }
      assert Current(plan, b, v) >= Current(plan, a, v);
    }
  }

  ghost predicate UnitTest(plan: Plan, u: Unit) { u.test < |plan.tests| }

  lemma UnitHasTest(plan: Plan, u: Unit)
    requires UnitOk(plan, u)
    ensures UnitTest(plan, u)
  {
  }

  lemma PodsStep(plan: Plan, env: Env, i: nat, s: Sweep, t: Sweep, u: Unit, s': Sweep)
    requires Swept(plan, env, i, s, t) && UnitOk(plan, u) && u.test == i && !Over(t.results, u)
    requires Visited(plan, env, t, u, s') && SweptResults(plan, i, t.results, s'.results)
    ensures SweptPods(plan, env, i, s, s')
  {
    hide ResultsOk, Current, SweptKills, KillsGrow, Moved, NodeSet;
    forall id | id in s'.pods && id !in s.pods ensures NewPod(plan, env, i, s, s', id) {
      if id in t.pods {
        assert NewPod(plan, env, i, s, t, id);
        assert Current(plan, s'.results, id.unit) >= Current(plan, t.results, id.unit);
      } else {
        assert MayCreate(plan, env, t, u, s', id);
        assert Current(plan, t.results, u) >= Current(plan, s.results, u);
        assert Current(plan, s'.results, u) >= Current(plan, t.results, u);
        assert !Over(s.results, u);
        if id.rank > 0 {
          var root := PodId(u, 0, id.attempt);
          assert root !in s.pods ==> NewPod(plan, env, i, s, t, root);
        }
      }
    }
  }

  lemma KillsStep(plan: Plan, env: Env, i: nat, s: Sweep, t: Sweep, u: Unit, s': Sweep)
    requires Swept(plan, env, i, s, t) && UnitOk(plan, u) && u.test == i
    requires Visited(plan, env, t, u, s') && SweptResults(plan, i, t.results, s'.results)
    ensures SweptKills(plan, i, s, s')
  {
    hide ResultsOk, Current, SweptPods, PodsGrow, BusyGrows, Moved;
    forall id | id in s'.kill && id !in s.kill ensures Condemned(plan, i, s, s', id) {
      if id in t.kill {
        assert Condemned(plan, i, s, t, id);
        assert Current(plan, s'.results, id.unit) >= Current(plan, t.results, id.unit);
      }
    }
  }

  lemma NodesStep(plan: Plan, env: Env, s: Sweep, t: Sweep, u: Unit, s': Sweep)
    requires SweptNodes(env, s, t) && UnitOk(plan, u) && Visited(plan, env, t, u, s') && t.ok
    ensures SweptNodes(env, s, s')
  {
    hide Current, Moved, KillsGrow;
    if LiveNodes(s.pods) <= s.busy {
      forall n | n in LiveNodes(s'.pods) ensures n in s'.busy {
        var id :| id in s'.pods && s'.pods[id].Live() && id.Node() == n;
        if id in t.pods { assert n in LiveNodes(t.pods); }
        else { assert MayCreate(plan, env, t, u, s', id); assert n in NodeSet(u); }
      }
    }
  }

  lemma SweptStep(plan: Plan, env: Env, i: nat, s: Sweep, t: Sweep, u: Unit)
    requires Swept(plan, env, i, s, t) && UnitOk(plan, u) && u.test == i && t.ok
    ensures Swept(plan, env, i, s, Advance(plan, env, t, u))
    ensures Over(t.results, u) ==> Advance(plan, env, t, u) == t
    ensures !Over(t.results, u) ==> Visited(plan, env, t, u, Advance(plan, env, t, u))
  {
    if !Over(t.results, u) {
      var s' := Advance(plan, env, t, u);
      ReadyInResults(plan, t.results, u);
      AdvanceVisited(plan, env, t, u);
      hide Advance, ResultsOk, Visited, SweptPods, SweptKills, SweptNodes, UnitOk;
      VisitedMoved(plan, env, t, u, s');
      ResultsStep(plan, i, t.results, u, s'.results);
      ResultsTrans(plan, i, s.results, t.results, s'.results);
      PodsStep(plan, env, i, s, t, u, s');
      KillsStep(plan, env, i, s, t, u, s');
      NodesStep(plan, env, s, t, u, s');
    }
  }

  lemma VisitedMoved(plan: Plan, env: Env, t: Sweep, u: Unit, s': Sweep)
    requires u.test < |plan.tests| && Visited(plan, env, t, u, s')
    ensures Moved(plan, t.results, u, s'.results)
  {
  }

  lemma ReadyInResults(plan: Plan, results: map<Unit, Result>, u: Unit)
    requires ResultsOk(plan, results) && u.test < |plan.tests| && !Over(results, u)
    ensures Ready(plan, results, u)
  {
  }

  ghost predicate OfTest(plan: Plan, i: nat, units: seq<Unit>) {
    forall k :: 0 <= k < |units| ==> UnitOk(plan, units[k]) && units[k].test == i
  }

  /** Every unit of a test is visited in turn, and each visit keeps to the rules. */
  lemma {:induction false} UnitsSwept(plan: Plan, env: Env, i: nat, s: Sweep, t: Sweep, units: seq<Unit>)
    requires Swept(plan, env, i, s, t) && OfTest(plan, i, units)
    ensures Swept(plan, env, i, s, SweepUnits(plan, env, t, units))
    decreases |units|
  {
    if units != [] && t.ok {
      assert UnitOk(plan, units[0]) && units[0].test == i;
      SweptStep(plan, env, i, s, t, units[0]);
      hide Swept, Advance, UnitOk;
      UnitsSwept(plan, env, i, s, Advance(plan, env, t, units[0]), units[1..]);
    }
  }

  ghost predicate AllOver(results: map<Unit, Result>, units: seq<Unit>) {
    forall k :: 0 <= k < |units| ==> Over(results, units[k])
  }

  lemma {:induction false} DoneIsQuiet(plan: Plan, env: Env, s: Sweep, units: seq<Unit>)
    requires forall k :: 0 <= k < |units| ==> UnitOk(plan, units[k])
    requires AllOver(s.results, units)
    ensures SweepUnits(plan, env, s, units) == s
    decreases |units|
  {
    if units != [] && s.ok {
      assert Over(s.results, units[0]);
      assert AllOver(s.results, units[1..]);
      DoneIsQuiet(plan, env, s, units[1..]);
    }
  }

  lemma AllOverCons(results: map<Unit, Result>, units: seq<Unit>)
    requires units != []
    ensures AllOver(results, units) <==> Over(results, units[0]) && AllOver(results, units[1..])
  {
    assert units == [units[0]] + units[1..];
  }

  lemma {:induction false} WorkShows(plan: Plan, env: Env, i: nat, s: Sweep, t: Sweep, units: seq<Unit>)
    requires Swept(plan, env, i, s, t) && OfTest(plan, i, units)
    requires !t.Idle() || !AllOver(t.results, units)
    ensures !SweepUnits(plan, env, t, units).Idle()
    decreases |units|
  {
    if units != [] && t.ok {
      var u := units[0];
      assert UnitOk(plan, u) && u.test == i;
      SweptStep(plan, env, i, s, t, u);
      hide Swept, Advance, UnitOk;
      var t' := Advance(plan, env, t, u);
      AllOverCons(t.results, units);
      WorkShows(plan, env, i, s, t', units[1..]);
    }
  }

  // ---------------------------------------------------------------- which test a sweep works on

  ghost predicate Halted(plan: Plan, results: map<Unit, Result>) {
    plan.failFast && RequiredPhase(plan, results, Failed)
  }

  /** The first test that still owes a result, unless an earlier failure stops the plan. */
  ghost function ActiveFrom(plan: Plan, results: map<Unit, Result>, i: nat): Option<nat>
    decreases |plan.tests| - i
  {
    if i >= |plan.tests| || Halted(plan, results) then None
    else if plan.tests[i].scope.OtherScope? || AllOver(results, Units(plan, i)) then ActiveFrom(plan, results, i + 1)
    else Some(i)
  }

  /** Results for tests of a scope the operator does not know were added, and nothing else. */
  ghost predicate Padded(plan: Plan, a: map<Unit, Result>, b: map<Unit, Result>) {
    && a.Keys <= b.Keys
    && (forall v :: v in a ==> b[v] == a[v])
    && (forall v :: v in b && v !in a ==>
          v.nodes == [] && v.test < |plan.tests| && plan.tests[v.test].scope.OtherScope? && b[v] == Cut(New(plan.tests[v.test].test)))
  }

  lemma PaddedUnit(plan: Plan, a: map<Unit, Result>, b: map<Unit, Result>, u: Unit)
    requires Padded(plan, a, b) && UnitOk(plan, u)
    ensures (u in a <==> u in b) && (Over(a, u) <==> Over(b, u)) && Current(plan, a, u) == Current(plan, b, u)
  {
  }

  lemma PaddedOk(plan: Plan, a: map<Unit, Result>, b: map<Unit, Result>)
    requires Padded(plan, a, b) && ResultsOk(plan, a)
    ensures ResultsOk(plan, b)
  {
    forall v | v in b && v !in a ensures ResultOk(plan.tests[v.test].test, b[v]) {
      NewOk(plan.tests[v.test].test);
    }
    hide ResultOk;
  }

  lemma PaddedHalted(plan: Plan, a: map<Unit, Result>, b: map<Unit, Result>)
    requires Padded(plan, a, b)
    ensures Halted(plan, a) <==> Halted(plan, b)
  {
    if RequiredPhase(plan, a, Failed) {
      var u :| u in a && u.test < |plan.tests| && plan.tests[u.test].required && a[u].phase == Failed;
      assert u in b && b[u].phase == Failed;
    }
    if RequiredPhase(plan, b, Failed) {
      var u :| u in b && u.test < |plan.tests| && plan.tests[u.test].required && b[u].phase == Failed;
      assert u in a;
    }
  }

  lemma {:induction false} PaddedActive(plan: Plan, a: map<Unit, Result>, b: map<Unit, Result>, i: nat)
    requires PlanOk(plan) && Padded(plan, a, b)
    ensures ActiveFrom(plan, a, i) == ActiveFrom(plan, b, i)
    decreases |plan.tests| - i
  {
    PaddedHalted(plan, a, b);
    if i < |plan.tests| && plan.tests[i].scope.OtherScope? {
      PaddedActive(plan, a, b, i + 1);
    } else if i < |plan.tests| {
      UnitsOk(plan, i);
      forall k | 0 <= k < |Units(plan, i)| ensures Over(a, Units(plan, i)[k]) <==> Over(b, Units(plan, i)[k]) {
        PaddedUnit(plan, a, b, Units(plan, i)[k]);
      }
      hide Padded, Halted, Units, Over;
      PaddedActive(plan, a, b, i + 1);
    }
  }

  lemma PadOne(plan: Plan, a: map<Unit, Result>, s: Sweep, i: nat)
    requires Padded(plan, a, s.results) && i < |plan.tests| && plan.tests[i].scope.OtherScope?
    ensures var s' := SettleUnknown(plan, s, i);
            Padded(plan, a, s'.results) && s' == s.(results := s'.results)
  {
    hide New, Cut;
  }

  ghost predicate UnknownsSettled(plan: Plan, results: map<Unit, Result>, i: nat) {
    forall j: nat :: i <= j < |plan.tests| && plan.tests[j].scope.OtherScope? ==> Unit(j, []) in results
  }

  /** A sweep adds results for unknown scopes, then works on the active test alone. */
  lemma {:induction false} SweepShape(plan: Plan, env: Env, a: map<Unit, Result>, s: Sweep, i: nat) returns (s0: Sweep)
    requires PlanOk(plan) && ResultsOk(plan, a) && Padded(plan, a, s.results) && s.Idle()
    ensures Padded(plan, a, s0.results) && ResultsOk(plan, s0.results) && s0 == s.(results := s0.results) && s.results.Keys <= s0.results.Keys
    ensures match ActiveFrom(plan, a, i)
            case None => SweepTests(plan, env, s, i) == s0 && (!Halted(plan, a) ==> UnknownsSettled(plan, s0.results, i))
            case Some(k) =>
              && i <= k < |plan.tests|
              && OfTest(plan, k, Units(plan, k))
              && SweepTests(plan, env, s, i) == SweepUnits(plan, env, s0, Units(plan, k))
              && !SweepTests(plan, env, s, i).Idle()
    decreases |plan.tests| - i
  {
    hide Padded, SweepUnits, ResultsOk, Over, AllOver, Units, RequiredPhase;
    PaddedOk(plan, a, s.results);
    PaddedHalted(plan, a, s.results);
    if i >= |plan.tests| || Halted(plan, a) {
      s0 := s;
    } else if plan.tests[i].scope.OtherScope? {
      PadOne(plan, a, s, i);
      s0 := SweepShape(plan, env, a, SettleUnknown(plan, s, i), i + 1);
    } else {
      UnitsOk(plan, i);
      OverPadded(plan, a, s.results, Units(plan, i));
      if AllOver(a, Units(plan, i)) {
        DoneIsQuiet(plan, env, s, Units(plan, i));
        s0 := SweepShape(plan, env, a, s, i + 1);
      } else {
        s0 := s;
        SweptNothing(plan, env, i, s);
        WorkShows(plan, env, i, s, s, Units(plan, i));
      }
    }
  }

  lemma OverPadded(plan: Plan, a: map<Unit, Result>, b: map<Unit, Result>, units: seq<Unit>)
    requires Padded(plan, a, b) && forall k :: 0 <= k < |units| ==> UnitOk(plan, units[k])
    ensures AllOver(a, units) <==> AllOver(b, units)
  {
    forall k | 0 <= k < |units| ensures Over(a, units[k]) <==> Over(b, units[k]) { PaddedUnit(plan, a, b, units[k]); }
  }
}
