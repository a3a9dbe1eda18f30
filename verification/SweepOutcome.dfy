/** What a reconcile pass can rely on after a sweep, in terms of the state it began from. */
module SweepOutcome {
  import opened Base
  import opened Attempts
  import opened Execution
  import opened ExecutionFacts
  import opened SweepFacts
  import opened Interlock

  /** Every earlier test has all its results, and none of them stopped the plan. */
  ghost predicate Ordered(plan: Plan, results: map<Unit, Result>, i: nat) {
    && (forall j :: 0 <= j < i && j < |plan.tests| && !plan.tests[j].scope.OtherScope? ==> AllOver(results, Units(plan, j)))
    && (plan.failFast ==> forall u :: u in results && u.test < i && u.test < |plan.tests| && plan.tests[u.test].required ==> !results[u].phase.Failed?)
  }

  /** Results move forward, in plan order, and a settled one never changes. */
  ghost predicate Progress(plan: Plan, a: map<Unit, Result>, b: map<Unit, Result>) {
    && ResultsOk(plan, b)
    && a.Keys <= b.Keys
    && (forall v :: v in a && Over(a, v) ==> b[v] == a[v])
    && (forall v :: UnitOk(plan, v) ==> Current(plan, b, v) >= Current(plan, a, v))
    && (forall v :: v in b && UnitOk(plan, v) && (v !in a || b[v] != a[v]) ==> Ordered(plan, a, v.test) && !Halted(plan, a))
    && (forall v :: v in b && !UnitOk(plan, v) ==> b[v].phase.Error? || (v in a && b[v] == a[v]))
  }

  ghost predicate Spawned(plan: Plan, env: Env, a: map<Unit, Result>, pods: map<PodId, Pod>, stamped: set<string>, s: Sweep) {
    && (forall id :: id in pods ==> id in s.pods && s.pods[id] == pods[id])
    && (forall id :: id in s.pods && id !in pods ==>
          NewPod(plan, env, id.unit.test, Seeded(a, pods, stamped), s, id) && Ordered(plan, a, id.unit.test))
  }

  /** A pair or group in flight: one attempt at a time, every node counted while a pod lives, none stamped after the start. */
  ghost predicate GangKept(plan: Plan, a: map<Unit, Result>, pods: map<PodId, Pod>, stamped: set<string>, s: Sweep) {
    && (forall id :: id in s.pods && id !in pods && Gang(plan, id.unit.test) ==> id.attempt == Current(plan, a, id.unit))
    && (forall k :: ActiveFrom(plan, a, 0) == Some(k) && Gang(plan, k) ==>
          var u := Unit(k, plan.targets);
          && (AnyLive(pods, u, Current(plan, a, u)) ==> NodeSet(u) <= s.busy)
          && (PodId(u, 0, Current(plan, a, u)) in pods ==> s.stamped == stamped))
  }

  ghost predicate Condemns(plan: Plan, s: Sweep) {
    forall id :: id in s.kill ==> UnitOk(plan, id.unit) && OnRecord(plan, s.results, id.unit, id.attempt)
  }

  lemma ActiveOrdered(plan: Plan, a: map<Unit, Result>, k: nat)
    requires ActiveFrom(plan, a, 0) == Some(k)
    ensures Ordered(plan, a, k) && !Halted(plan, a) && k < |plan.tests|
  {
    ActiveNotOver(plan, a, 0, k);
    if plan.failFast {
      forall u | u in a && u.test < k && plan.tests[u.test].required ensures !a[u].phase.Failed? {
        assert a[u].phase == Failed ==> RequiredPhase(plan, a, Failed);
      }
    }
  }

  lemma ProgressPad(plan: Plan, a: map<Unit, Result>, b: map<Unit, Result>)
    requires Padded(plan, a, b) && ResultsOk(plan, b)
    ensures Progress(plan, a, b)
  {
    hide ResultsOk, Current, Ordered, Halted;
    forall v | UnitOk(plan, v) ensures Current(plan, b, v) >= Current(plan, a, v) { PaddedUnit(plan, a, b, v); }
  }

  lemma ProgressWork(plan: Plan, k: nat, a: map<Unit, Result>, p: map<Unit, Result>, b: map<Unit, Result>)
    requires Padded(plan, a, p) && SweptResults(plan, k, p, b) && ActiveFrom(plan, a, 0) == Some(k)
    ensures Progress(plan, a, b)
  {
    ActiveOrdered(plan, a, k);
    ActiveNotOver(plan, a, 0, k);
    NonUnits(plan, k, p, b);
    hide ResultsOk, Ordered, Halted, ActiveFrom, AllOver, UnitOk, New, Current, Padded;
    SettledStays(plan, k, a, p, b);
    UnknownStays(plan, k, a, p, b);
    forall v | UnitOk(plan, v)
      ensures v.test < |plan.tests| && Current(plan, b, v) >= Current(plan, a, v)
      ensures v in b && (v !in a || b[v] != a[v]) ==> v.test == k
    {
      UnitForward(plan, k, a, p, b, v);
    }
  }

  lemma UnitForward(plan: Plan, k: nat, a: map<Unit, Result>, p: map<Unit, Result>, b: map<Unit, Result>, v: Unit)
    requires Padded(plan, a, p) && SweptResults(plan, k, p, b) && UnitOk(plan, v)
    ensures v.test < |plan.tests| && Current(plan, b, v) >= Current(plan, a, v)
    ensures v in b && (v !in a || b[v] != a[v]) ==> v.test == k
  {
    UnitHasTest(plan, v);
    PaddedUnit(plan, a, p, v);
    hide ResultsOk, UnitOk, New, Current;
    assert Current(plan, b, v) >= Current(plan, p, v);
  }

  lemma SettledStays(plan: Plan, k: nat, a: map<Unit, Result>, p: map<Unit, Result>, b: map<Unit, Result>)
    requires Padded(plan, a, p) && SweptResults(plan, k, p, b)
    ensures a.Keys <= b.Keys
    ensures forall v :: v in a && Over(a, v) ==> b[v] == a[v]
  {
    hide ResultsOk, UnitOk, New;
    forall v | v in a && Over(a, v) ensures b[v] == a[v] { assert Over(p, v); }
  }

  lemma UnknownStays(plan: Plan, k: nat, a: map<Unit, Result>, p: map<Unit, Result>, b: map<Unit, Result>)
    requires Padded(plan, a, p) && forall v :: v in b && !UnitOk(plan, v) ==> v in p && b[v] == p[v]
    ensures forall v :: v in b && !UnitOk(plan, v) ==> b[v].phase.Error? || (v in a && b[v] == a[v])
  {
  }

  /** Results of unknown scopes are untouched by the work on a test. */
  lemma NonUnits(plan: Plan, k: nat, p: map<Unit, Result>, b: map<Unit, Result>)
    requires SweptResults(plan, k, p, b) && k < |plan.tests| && !plan.tests[k].scope.OtherScope?
    ensures forall v :: v in b && !UnitOk(plan, v) ==> v in p && b[v] == p[v]
  {
    forall v | v in b && !UnitOk(plan, v) ensures v in p && b[v] == p[v] {
      assert v.test != k;
    }
  }

  lemma SpawnedWork(plan: Plan, env: Env, k: nat, a: map<Unit, Result>, pods: map<PodId, Pod>, stamped: set<string>, s0: Sweep, s: Sweep)
    requires ActiveFrom(plan, a, 0) == Some(k) && Padded(plan, a, s0.results) && s0.pods == pods && Swept(plan, env, k, s0, s)
    ensures Spawned(plan, env, a, pods, stamped, s)
  {
    ActiveOrdered(plan, a, k);
    hide ResultsOk, Ordered, Halted, ActiveFrom, SweptResults, SweptKills, SweptNodes, Current, Padded, NewPod, UnitOk;
    forall id | id in s.pods && id !in pods
      ensures NewPod(plan, env, id.unit.test, Seeded(a, pods, stamped), s, id) && Ordered(plan, a, id.unit.test)
    {
      assert NewPod(plan, env, k, s0, s, id);
      SpawnedOne(plan, env, k, a, stamped, s0, s, id);
    }
  }

  lemma SpawnedOne(plan: Plan, env: Env, k: nat, a: map<Unit, Result>, stamped: set<string>, s0: Sweep, s: Sweep, id: PodId)
    requires Padded(plan, a, s0.results) && NewPod(plan, env, k, s0, s, id)
    ensures id.unit.test == k && NewPod(plan, env, k, Seeded(a, s0.pods, stamped), s, id)
  {
    PaddedUnit(plan, a, s0.results, id.unit);
    hide Current, UnitOk, NodeSet, Padded;
  }

  /** Everything a sweep does, from the results and pods it began with. */
  lemma Executed(plan: Plan, env: Env, a: map<Unit, Result>, pods: map<PodId, Pod>, stamped: set<string>)
    requires PlanOk(plan) && ResultsOk(plan, a)
    ensures var s := Execute(plan, env, a, pods, stamped);
            && Progress(plan, a, s.results)
            && Spawned(plan, env, a, pods, stamped, s)
            && Condemns(plan, s)
            && GangKept(plan, a, pods, stamped, s)
            && LiveNodes(s.pods) + Holding(a) <= s.busy
            && stamped <= s.stamped <= stamped + env.claimable
            && (s.ok ==> s.stamped <= stamped + s.busy)
            && (s.Idle() ==>
                  && ActiveFrom(plan, a, 0) == None
                  && Padded(plan, a, s.results)
                  && (!Halted(plan, a) ==> UnknownsSettled(plan, s.results, 0)))
  {
    var seed := Seeded(a, pods, stamped);
    PaddedSelf(plan, a);
    var s0 := SweepShape(plan, env, a, seed, 0);
    var s := Execute(plan, env, a, pods, stamped);
    hide ResultsOk, Padded, ActiveFrom, UnknownsSettled, Halted, SweepUnits, OfTest, LiveNodes, Holding, Units, AllOver, Progress, Spawned, Condemns, GangKept, SweptResults, SweptPods, SweptKills;
    match ActiveFrom(plan, a, 0)
    case None =>
      ProgressPad(plan, a, s.results);
      NothingSpawned(plan, env, a, pods, stamped, s);
    case Some(k) =>
      SweptNothing(plan, env, k, s0);
      UnitsSwept(plan, env, k, s0, s0, Units(plan, k));
      ProgressWork(plan, k, a, s0.results, s.results);
      SpawnedWork(plan, env, k, a, pods, stamped, s0, s);
      CondemnsWork(plan, env, k, s0, s);
      GangWork(plan, env, k, a, s0, s);
  }

  lemma NothingSpawned(plan: Plan, env: Env, a: map<Unit, Result>, pods: map<PodId, Pod>, stamped: set<string>, s: Sweep)
    requires s.pods == pods && s.kill == {} && ActiveFrom(plan, a, 0) == None
    ensures Spawned(plan, env, a, pods, stamped, s) && Condemns(plan, s) && GangKept(plan, a, pods, stamped, s)
  {
  }

  lemma PaddedSelf(plan: Plan, a: map<Unit, Result>)
    ensures Padded(plan, a, a)
  {
  }

  lemma CondemnsWork(plan: Plan, env: Env, k: nat, s0: Sweep, s: Sweep)
    requires Swept(plan, env, k, s0, s) && s0.kill == {}
    ensures Condemns(plan, s)
  {
    forall id | id in s.kill ensures UnitOk(plan, id.unit) && OnRecord(plan, s.results, id.unit, id.attempt) {
      assert SweepFacts.Condemned(plan, k, s0, s, id);
    }
  }

  lemma GangWork(plan: Plan, env: Env, k: nat, a: map<Unit, Result>, s0: Sweep, s: Sweep)
    requires PlanOk(plan) && ResultsOk(plan, a) && Padded(plan, a, s0.results) && ResultsOk(plan, s0.results) && s0.ok
    requires ActiveFrom(plan, a, 0) == Some(k) && k < |plan.tests| && OfTest(plan, k, Units(plan, k))
    requires s == SweepUnits(plan, env, s0, Units(plan, k)) && Swept(plan, env, k, s0, s)
    ensures GangKept(plan, a, s0.pods, s0.stamped, s)
  {
    hide SweptResults, SweptKills, SweptNodes, SweepUnits, ResultsOk, Visited, ActiveFrom, Padded, AllOver, UnitOk, Current, OfTest;
    assert forall id :: id in s.pods && id !in s0.pods ==> NewPod(plan, env, k, s0, s, id);
    if Gang(plan, k) {
      GangVisit(plan, env, k, a, s0);
      GangVisitKept(plan, env, k, a, s0, s);
    }
  }

  lemma GangVisit(plan: Plan, env: Env, k: nat, a: map<Unit, Result>, s0: Sweep)
    requires PlanOk(plan) && Padded(plan, a, s0.results) && ResultsOk(plan, s0.results) && s0.ok
    requires ActiveFrom(plan, a, 0) == Some(k) && Gang(plan, k)
    requires OfTest(plan, k, Units(plan, k))
    ensures var u := Unit(k, plan.targets);
            var s := SweepUnits(plan, env, s0, Units(plan, k));
            && Visited(plan, env, s0, u, s)
            && Current(plan, a, u) == Current(plan, s0.results, u)
            && (PodId(u, 0, Current(plan, a, u)) in s0.pods ==> s.stamped == s0.stamped)
  {
    hide Visited, SweepUnits, ResultsOk, Current;
    ActiveNotOver(plan, a, 0, k);
    OverPadded(plan, a, s0.results, Units(plan, k));
    GangSweep(plan, env, s0, k);
    PaddedUnit(plan, a, s0.results, Unit(k, plan.targets));
    var u := Unit(k, plan.targets);
    if PodId(u, 0, Current(plan, a, u)) in s0.pods {
      OneUnitSweep(plan, env, s0, u);
      ReadyInResults(plan, s0.results, u);
      GangStampsAtStart(plan, env, s0, u);
    }
  }

  lemma OneUnitSweep(plan: Plan, env: Env, s: Sweep, u: Unit)
    requires UnitOk(plan, u) && s.ok
    ensures SweepUnits(plan, env, s, [u]) == Advance(plan, env, s, u)
  {
    hide Advance;
    assert [u][1..] == [];
    assert SweepUnits(plan, env, s, [u]) == SweepUnits(plan, env, Advance(plan, env, s, u), []);
  }

  lemma GangVisitKept(plan: Plan, env: Env, k: nat, a: map<Unit, Result>, s0: Sweep, s: Sweep)
    requires ActiveFrom(plan, a, 0) == Some(k) && Gang(plan, k)
    requires Visited(plan, env, s0, Unit(k, plan.targets), s)
    requires var u := Unit(k, plan.targets);
             && Current(plan, a, u) == Current(plan, s0.results, u)
             && (PodId(u, 0, Current(plan, a, u)) in s0.pods ==> s.stamped == s0.stamped)
    ensures GangKept(plan, a, s0.pods, s0.stamped, s)
  {
    hide ActiveFrom, Moved, KillsGrow, AnyLive, NodeSet, Current;
    var u := Unit(k, plan.targets);
    assert forall id :: id in s.pods && id !in s0.pods ==> MayCreate(plan, env, s0, u, s, id);
  }
}
