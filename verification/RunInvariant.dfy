/** What every step of a run keeps, and what follows for whole runs. */
module RunInvariant {
  import opened Base
  import opened Verdict
  import opened Soak
  import opened Attempts
  import opened AttemptHistory
  import opened AttemptVerdict
  import opened Execution
  import opened ExecutionFacts
  import opened SweepFacts
  import opened Interlock
  import opened SweepOutcome
  import opened RunProtocol

  // ---------------------------------------------------------------- the invariant

  ghost predicate ResultsOrdered(plan: Plan, results: map<Unit, Result>) {
    forall u :: u in results && UnitOk(plan, u) ==> Ordered(plan, results, u.test)
  }

  ghost predicate PodOk(plan: Plan, results: map<Unit, Result>, id: PodId) {
    && UnitOk(plan, id.unit)
    && id.rank < |id.unit.nodes|
    && 1 <= id.attempt
    && (Gang(plan, id.unit.test) ==> id.attempt <= Current(plan, results, id.unit))
    && Ordered(plan, results, id.unit.test)
  }

  ghost predicate PodsOk(plan: Plan, results: map<Unit, Result>, pods: map<PodId, Pod>) {
    forall id :: id in pods ==> PodOk(plan, results, id)
  }

  /** The nodes another owner held when this pod's attempt started. */
  function Waived(conceded: map<PodId, set<string>>, id: PodId): set<string> {
    var root := PodId(id.unit, 0, id.attempt);
    if root in conceded then conceded[root] else {}
  }

  /** Every existing node of an unsettled unit with a live pod carries the run's stamp, or another owner's kept it off. */
  ghost predicate Shielded(results: map<Unit, Result>, pods: map<PodId, Pod>, stamped: set<string>, existing: set<string>,
                           conceded: map<PodId, set<string>>) {
    forall id :: id in pods && pods[id].Live() && !Over(results, id.unit) ==> NodeSet(id.unit) * existing <= stamped + Waived(conceded, id)
  }

  /** A pair or group never stamps later what it conceded at its start. */
  ghost predicate Apart(plan: Plan, results: map<Unit, Result>, pods: map<PodId, Pod>, stamped: set<string>,
                        conceded: map<PodId, set<string>>) {
    forall id :: id in pods && id.rank == 0 && Gang(plan, id.unit.test) && !Over(results, id.unit)
                 && id.attempt == Current(plan, results, id.unit) ==>
      id in conceded && conceded[id] !! stamped
  }

  ghost predicate Guarded(plan: Plan, results: map<Unit, Result>, pods: map<PodId, Pod>, stamped: set<string>, foreign: set<string>,
                          existing: set<string>, conceded: map<PodId, set<string>>) {
    stamped !! foreign && Shielded(results, pods, stamped, existing, conceded) && Apart(plan, results, pods, stamped, conceded)
  }

  /** A killed pod's attempt is on the durable record. */
  ghost predicate KillsRecorded(plan: Plan, st: State) {
    forall id :: id in st.killed ==>
      st.phase.Terminal() || st.deleting || (UnitOk(plan, id.unit) && OnRecord(plan, st.results, id.unit, id.attempt))
  }

  /** Every verdict a required test owes is a skip, or a pass that was earned. */
  ghost predicate Accepted(plan: Plan, results: map<Unit, Result>) {
    forall i :: 0 <= i < |plan.tests| && plan.tests[i].required ==>
      && !plan.tests[i].scope.OtherScope?
      && forall k :: 0 <= k < |Units(plan, i)| ==>
           var u := Units(plan, i)[k];
           u in results && (results[u].phase.Skipped? || (results[u].phase.Passed? && Earned(plan.tests[i].test, results[u])))
  }

  ghost predicate Sound(plan: Plan, results: map<Unit, Result>, pods: map<PodId, Pod>) {
    ResultsOk(plan, results) && ResultsOrdered(plan, results) && PodsOk(plan, results, pods)
  }

  ghost predicate Inv(plan: Plan, st: State) {
    && (!st.phase.Terminal() ==>
          st.phase.Running? && Sound(plan, st.results, st.pods) && Guarded(plan, st.results, st.pods, st.stamped, st.foreign, st.existing, st.conceded))
    && KillsRecorded(plan, st)
    && (st.phase.Passed? ==> Accepted(plan, st.results))
  }

  // ---------------------------------------------------------------- order

  lemma UnitListed(plan: Plan, u: Unit)
    requires UnitOk(plan, u)
    ensures u in Units(plan, u.test)
  {
    if plan.tests[u.test].scope.NodeScope? {
      var k :| 0 <= k < |plan.targets| && plan.targets[k] == u.nodes[0];
      assert Units(plan, u.test)[k] == u;
    }
  }

  lemma EarlierIsOver(plan: Plan, results: map<Unit, Result>, i: nat, u: Unit)
    requires Ordered(plan, results, i) && UnitOk(plan, u) && u.test < i
    ensures Over(results, u)
  {
    UnitListed(plan, u);
    var k :| 0 <= k < |Units(plan, u.test)| && Units(plan, u.test)[k] == u;
    assert AllOver(results, Units(plan, u.test));
  }

  lemma OrderedKept(plan: Plan, a: map<Unit, Result>, b: map<Unit, Result>, i: nat)
    requires Progress(plan, a, b) && Ordered(plan, a, i)
    ensures Ordered(plan, b, i)
  {
    hide ResultsOk, Current;
    forall j | 0 <= j < i && j < |plan.tests| && !plan.tests[j].scope.OtherScope? ensures AllOver(b, Units(plan, j)) {
      assert AllOver(a, Units(plan, j));
      forall k | 0 <= k < |Units(plan, j)| ensures Over(b, Units(plan, j)[k]) { assert Over(a, Units(plan, j)[k]); }
    }
    if plan.failFast {
      forall u | u in b && u.test < i && u.test < |plan.tests| && plan.tests[u.test].required ensures !b[u].phase.Failed? {
        if UnitOk(plan, u) { EarlierIsOver(plan, a, i, u); }
      }
    }
  }

  lemma CurrentPositive(plan: Plan, results: map<Unit, Result>, u: Unit)
    requires ResultsOk(plan, results) && u.test < |plan.tests|
    ensures Current(plan, results, u) >= 1
  {
    if u in results {
      assert HistoryOk(results[u]);
      hide ResultsOk, HistoryOk;
      NextPositive(results[u]);
    }
  }

  lemma NextPositive(r: Result)
    requires HistoryOk(r)
    ensures NextNumber(r.attempts) >= 1
  {
  }

  lemma SpawnedPodOk(plan: Plan, env: Env, a: map<Unit, Result>, pods: map<PodId, Pod>, stamped: set<string>, s: Sweep, id: PodId)
    requires ResultsOk(plan, a) && Spawned(plan, env, a, pods, stamped, s) && GangKept(plan, a, pods, stamped, s) && id in s.pods && id !in pods
    ensures PodOk(plan, a, id)
  {
    assert NewPod(plan, env, id.unit.test, Seeded(a, pods, stamped), s, id) && Ordered(plan, a, id.unit.test);
    hide Ordered, ActiveFrom, AnyLive, NodeSet, ResultsOk;
    CurrentPositive(plan, a, id.unit);
  }

  lemma PodOkKept(plan: Plan, a: map<Unit, Result>, b: map<Unit, Result>, id: PodId)
    requires Progress(plan, a, b) && PodOk(plan, a, id)
    ensures PodOk(plan, b, id)
  {
    OrderedKept(plan, a, b, id.unit.test);
    hide Ordered, ResultsOk, Current;
    assert Current(plan, b, id.unit) >= Current(plan, a, id.unit);
  }

  lemma PodsKept(plan: Plan, env: Env, a: map<Unit, Result>, pods: map<PodId, Pod>, stamped: set<string>, s: Sweep)
    requires ResultsOk(plan, a) && PodsOk(plan, a, pods)
    requires Progress(plan, a, s.results) && Spawned(plan, env, a, pods, stamped, s) && GangKept(plan, a, pods, stamped, s)
    ensures PodsOk(plan, a, s.pods)
    ensures PodsOk(plan, s.results, s.pods)
  {
    hide Progress, Spawned, GangKept, PodOk, ResultsOk;
    forall id | id in s.pods ensures PodOk(plan, a, id) && PodOk(plan, s.results, id) {
      if id !in pods { SpawnedPodOk(plan, env, a, pods, stamped, s, id); }
      PodOkKept(plan, a, s.results, id);
    }
  }

  lemma ResultsOrderedKept(plan: Plan, a: map<Unit, Result>, b: map<Unit, Result>)
    requires ResultsOrdered(plan, a) && Progress(plan, a, b)
    ensures ResultsOrdered(plan, b)
  {
    forall u | u in b && UnitOk(plan, u) ensures Ordered(plan, b, u.test) {
      hide Ordered, UnitOk, ResultsOk, Current;
      OrderedKept(plan, a, b, u.test);
    }
  }

  lemma SoundKept(plan: Plan, env: Env, a: map<Unit, Result>, pods: map<PodId, Pod>, stamped: set<string>, s: Sweep)
    requires Sound(plan, a, pods)
    requires Progress(plan, a, s.results) && Spawned(plan, env, a, pods, stamped, s) && GangKept(plan, a, pods, stamped, s)
    ensures Sound(plan, a, s.pods) && Sound(plan, s.results, s.pods)
  {
    PodsKept(plan, env, a, pods, stamped, s);
    ResultsOrderedKept(plan, a, s.results);
    hide PodsOk, ResultsOrdered, ResultsOk, Spawned, GangKept;
  }

  // ---------------------------------------------------------------- nodes of a unit in flight stay held

  /** A pair or group in flight is the one thing the next sweep works on. */
  lemma GangActive(plan: Plan, results: map<Unit, Result>, pods: map<PodId, Pod>, id: PodId)
    requires PlanOk(plan) && Sound(plan, results, pods) && id in pods && Gang(plan, id.unit.test) && !Over(results, id.unit)
    ensures ActiveFrom(plan, results, 0) == Some(id.unit.test) && id.unit == Unit(id.unit.test, plan.targets)
  {
    var k := id.unit.test;
    assert PodOk(plan, results, id);
    NotHalted(plan, results, pods, id);
    assert Units(plan, k)[0] == id.unit;
    hide Sound, Halted, PodOk;
    ActiveReaches(plan, results, 0, k);
  }

  lemma NotHalted(plan: Plan, results: map<Unit, Result>, pods: map<PodId, Pod>, id: PodId)
    requires PlanOk(plan) && Sound(plan, results, pods) && id in pods && Gang(plan, id.unit.test) && !Over(results, id.unit)
    ensures !Halted(plan, results)
  {
    if Halted(plan, results) {
      var u :| u in results && u.test < |plan.tests| && plan.tests[u.test].required && results[u].phase == Failed;
      assert PodOk(plan, results, id);
      FailureBlocks(plan, results, id.unit, u);
    }
  }

  lemma FailureBlocks(plan: Plan, results: map<Unit, Result>, g: Unit, u: Unit)
    requires UnitOk(plan, u) && Ordered(plan, results, u.test) && plan.failFast
    requires UnitOk(plan, g) && Gang(plan, g.test) && Ordered(plan, results, g.test)
    requires u in results && u.test < |plan.tests| && plan.tests[u.test].required && results[u].phase.Failed?
    ensures Over(results, g)
  {
    if u.test > g.test {
      EarlierIsOver(plan, results, u.test, g);
    }
  }

  lemma {:induction false} ActiveReaches(plan: Plan, results: map<Unit, Result>, i: nat, k: nat)
    requires i <= k < |plan.tests| && Ordered(plan, results, k) && !Halted(plan, results)
    requires !plan.tests[k].scope.OtherScope? && !AllOver(results, Units(plan, k))
    ensures ActiveFrom(plan, results, i) == Some(k)
    decreases k - i
  {
    if i < k { ActiveReaches(plan, results, i + 1, k); }
  }

  ghost predicate SweptFrom(plan: Plan, env: Env, a: map<Unit, Result>, pods: map<PodId, Pod>, stamped: set<string>, s: Sweep) {
    && Progress(plan, a, s.results)
    && Spawned(plan, env, a, pods, stamped, s)
    && Condemns(plan, s)
    && GangKept(plan, a, pods, stamped, s)
    && LiveNodes(s.pods) + Holding(a) <= s.busy
    && stamped <= s.stamped <= stamped + env.claimable
    && (s.ok ==> s.stamped <= stamped + s.busy)
  }

  /** Every node of an unsettled unit with a live pod is counted by the time the sweep ends. */
  lemma UnitCovered(plan: Plan, env: Env, a: map<Unit, Result>, pods: map<PodId, Pod>, stamped: set<string>, s: Sweep, id: PodId)
    requires PlanOk(plan) && Sound(plan, a, pods) && SweptFrom(plan, env, a, pods, stamped, s)
    requires id in s.pods && s.pods[id].Live() && !Over(a, id.unit)
    ensures NodeSet(id.unit) <= s.busy
  {
    var u := id.unit;
    if id in pods {
      assert PodOk(plan, a, id);
      assert s.pods[id] == pods[id];
    }
    hide Progress, Condemns, Holding, LiveNodes, NodeSet, ActiveFrom, Sound, Over;
    if id !in pods {
      assert NewPod(plan, env, u.test, Seeded(a, pods, stamped), s, id);
    } else if u in a {
      HoldingHas(a, u);
    } else if Gang(plan, u.test) {
      GangActive(plan, a, pods, id);
      FirstAttemptLive(plan, a, pods, id);
    } else {
      SingleLive(plan, s.pods, id);
    }
  }

  /** And so is everything committed, pods created in the meantime included. */
  lemma CommittedIsBusy(plan: Plan, env: Env, a: map<Unit, Result>, pods: map<PodId, Pod>, stamped: set<string>, s: Sweep)
    requires PlanOk(plan) && Sound(plan, a, pods) && SweptFrom(plan, env, a, pods, stamped, s)
    ensures Committed(a, s.pods) <= s.busy
  {
    hide Sound, Progress, Spawned, Condemns, GangKept, LiveNodes, Holding;
    forall n | n in Reserved(a, s.pods) ensures n in s.busy {
      var id :| id in s.pods && s.pods[id].Live() && !Over(a, id.unit) && n in id.unit.nodes;
      UnitCovered(plan, env, a, pods, stamped, s, id);
      assert n in NodeSet(id.unit);
    }
  }

  lemma FirstAttemptLive(plan: Plan, a: map<Unit, Result>, pods: map<PodId, Pod>, id: PodId)
    requires PodOk(plan, a, id) && Gang(plan, id.unit.test) && id.unit !in a && id in pods && pods[id].Live()
    ensures AnyLive(pods, id.unit, Current(plan, a, id.unit))
  {
    hide Ordered;
    assert id in AttemptPods(pods, id.unit, Current(plan, a, id.unit));
  }

  lemma SingleLive(plan: Plan, pods: map<PodId, Pod>, id: PodId)
    requires UnitOk(plan, id.unit) && !Gang(plan, id.unit.test) && id.rank < |id.unit.nodes| && id in pods && pods[id].Live()
    ensures NodeSet(id.unit) <= LiveNodes(pods)
  {
    assert id.Node() in LiveNodes(pods);
    assert NodeSet(id.unit) == {id.Node()};
  }

  lemma HoldingHas(a: map<Unit, Result>, u: Unit)
    requires u in a && !Over(a, u)
    ensures NodeSet(u) <= Holding(a)
  {
  }

  /** What the stamps of a sweep say about a pod that is live after it. */
  lemma StampedIn(plan: Plan, env: Env, st: State, s: Sweep, id: PodId)
    requires SweptFrom(plan, env, st.results, st.pods, st.stamped, s) && env.claimable == st.existing - st.foreign
    requires Shielded(st.results, st.pods, st.stamped, st.existing, st.conceded)
    requires id in s.pods && s.pods[id].Live() && !Over(st.results, id.unit)
    ensures NodeSet(id.unit) * st.existing <= s.stamped + Waived(Conceded(st, s.pods), id)
  {
    hide Progress, Condemns, GangKept, NodeSet, LiveNodes, Holding, Over, UnitOk, Current;
    var seed := Seeded(st.results, st.pods, st.stamped);
    var root := PodId(id.unit, 0, id.attempt);
    if root in s.pods && root !in st.pods {
      assert NewPod(plan, env, root.unit.test, seed, s, root);
    } else {
      assert Waived(Conceded(st, s.pods), id) == Waived(st.conceded, id);
      if id !in st.pods {
        assert NewPod(plan, env, id.unit.test, seed, s, id);
        assert id.rank > 0;
        assert root in st.pods && st.pods[root].Live() && !Over(st.results, root.unit);
      }
    }
  }

  /** No release after a sweep uncovers a node of an unsettled unit with a live pod. */
  lemma ShieldKept(plan: Plan, env: Env, st: State, s: Sweep, released: set<string>)
    requires PlanOk(plan) && Sound(plan, st.results, st.pods) && SweptFrom(plan, env, st.results, st.pods, st.stamped, s)
    requires env.claimable == st.existing - st.foreign && released <= Free(s)
    requires Shielded(st.results, st.pods, st.stamped, st.existing, st.conceded)
    ensures Shielded(st.results, s.pods, s.stamped - released, st.existing, Conceded(st, s.pods))
  {
    forall id | id in s.pods && s.pods[id].Live() && !Over(st.results, id.unit)
      ensures NodeSet(id.unit) * st.existing <= (s.stamped - released) + Waived(Conceded(st, s.pods), id)
    {
      hide Sound, SweptFrom, Shielded, NodeSet, Waived, Conceded, Over;
      UnitCovered(plan, env, st.results, st.pods, st.stamped, s, id);
      StampedIn(plan, env, st, s, id);
    }
  }

  lemma ApartKept(plan: Plan, env: Env, st: State, s: Sweep, released: set<string>)
    requires PlanOk(plan) && Sound(plan, st.results, st.pods) && SweptFrom(plan, env, st.results, st.pods, st.stamped, s)
    requires env.claimable == st.existing - st.foreign && Guarded(plan, st.results, st.pods, st.stamped, st.foreign, st.existing, st.conceded)
    ensures Apart(plan, st.results, s.pods, s.stamped - released, Conceded(st, s.pods))
  {
    forall id | id in s.pods && id.rank == 0 && Gang(plan, id.unit.test) && !Over(st.results, id.unit)
                && id.attempt == Current(plan, st.results, id.unit)
      ensures id in Conceded(st, s.pods) && Conceded(st, s.pods)[id] !! s.stamped - released
    {
      ApartOne(plan, env, st, s, id);
    }
  }

  lemma ApartOne(plan: Plan, env: Env, st: State, s: Sweep, id: PodId)
    requires PlanOk(plan) && Sound(plan, st.results, st.pods) && SweptFrom(plan, env, st.results, st.pods, st.stamped, s)
    requires env.claimable == st.existing - st.foreign && Guarded(plan, st.results, st.pods, st.stamped, st.foreign, st.existing, st.conceded)
    requires id in s.pods && id.rank == 0 && Gang(plan, id.unit.test) && !Over(st.results, id.unit)
    requires id.attempt == Current(plan, st.results, id.unit)
    ensures id in Conceded(st, s.pods) && Conceded(st, s.pods)[id] !! s.stamped
  {
    hide Progress, Spawned, Condemns, Shielded, Sound, LiveNodes, Holding, ActiveFrom, NodeSet, Over, Current, AnyLive;
    if id in st.pods {
      GangActive(plan, st.results, st.pods, id);
      StampsKept(plan, st, s, id.unit.test);
      assert id in st.conceded && st.conceded[id] !! st.stamped;
    }
    hide GangKept;
  }

  lemma StampsKept(plan: Plan, st: State, s: Sweep, k: nat)
    requires GangKept(plan, st.results, st.pods, st.stamped, s) && ActiveFrom(plan, st.results, 0) == Some(k) && Gang(plan, k)
    requires var u := Unit(k, plan.targets); PodId(u, 0, Current(plan, st.results, u)) in st.pods
    ensures s.stamped == st.stamped
  {
    hide ActiveFrom, AnyLive, NodeSet, Current;
  }

  /** Settling results only shrinks what must be shielded. */
  lemma ShieldForward(plan: Plan, a: map<Unit, Result>, b: map<Unit, Result>, pods: map<PodId, Pod>, stamped: set<string>,
                      existing: set<string>, conceded: map<PodId, set<string>>)
    requires Progress(plan, a, b) && Shielded(a, pods, stamped, existing, conceded)
    ensures Shielded(b, pods, stamped, existing, conceded)
  {
    hide ResultsOk, UnitOk, Current, NodeSet, Waived;
  }

  lemma ApartForward(plan: Plan, a: map<Unit, Result>, b: map<Unit, Result>, pods: map<PodId, Pod>, stamped: set<string>,
                     conceded: map<PodId, set<string>>)
    requires Progress(plan, a, b) && PodsOk(plan, a, pods) && Apart(plan, a, pods, stamped, conceded)
    ensures Apart(plan, b, pods, stamped, conceded)
  {
    forall id | id in pods && id.rank == 0 && Gang(plan, id.unit.test) && !Over(b, id.unit) && id.attempt == Current(plan, b, id.unit)
      ensures id in conceded && conceded[id] !! stamped
    {
      assert PodOk(plan, a, id);
      hide ResultsOk, Ordered, Current;
      assert Current(plan, b, id.unit) >= Current(plan, a, id.unit);
    }
  }

  /** Whether or not its record is written, a sweep and the release after it keep the stamps guarded. */
  lemma GuardKept(plan: Plan, env: Env, st: State, s: Sweep, released: set<string>)
    requires PlanOk(plan) && Sound(plan, st.results, st.pods) && SweptFrom(plan, env, st.results, st.pods, st.stamped, s)
    requires env.claimable == st.existing - st.foreign && Guarded(plan, st.results, st.pods, st.stamped, st.foreign, st.existing, st.conceded) && released <= Free(s)
    ensures Guarded(plan, st.results, s.pods, s.stamped - released, st.foreign, st.existing, Conceded(st, s.pods))
    ensures Guarded(plan, s.results, s.pods, s.stamped - released, st.foreign, st.existing, Conceded(st, s.pods))
  {
    ShieldKept(plan, env, st, s, released);
    ApartKept(plan, env, st, s, released);
    SoundKept(plan, env, st.results, st.pods, st.stamped, s);
    assert PodsOk(plan, st.results, s.pods);
    assert Progress(plan, st.results, s.results);
    assert s.stamped !! st.foreign;
    hide Sound, SweptFrom, Shielded, Apart, Conceded, Progress, PodsOk, Extended;
    ShieldForward(plan, st.results, s.results, s.pods, s.stamped - released, st.existing, Conceded(st, s.pods));
    ApartForward(plan, st.results, s.results, s.pods, s.stamped - released, Conceded(st, s.pods));
  }

  lemma FewerPods(plan: Plan, results: map<Unit, Result>, pods: map<PodId, Pod>, stamped: set<string>, foreign: set<string>,
                  existing: set<string>, conceded: map<PodId, set<string>>, kills: set<PodId>)
    requires Sound(plan, results, pods) && Guarded(plan, results, pods, stamped, foreign, existing, conceded)
    ensures Sound(plan, results, pods - kills) && Guarded(plan, results, pods - kills, stamped, foreign, existing, conceded)
  {
    hide ResultsOk, ResultsOrdered, PodOk, NodeSet, Waived, Current, Over;
  }

  // ---------------------------------------------------------------- a pass

  lemma RecordedKept(plan: Plan, a: map<Unit, Result>, b: map<Unit, Result>, id: PodId)
    requires Progress(plan, a, b) && UnitOk(plan, id.unit) && OnRecord(plan, a, id.unit, id.attempt)
    ensures OnRecord(plan, b, id.unit, id.attempt)
  {
    hide ResultsOk, Ordered, Current;
    assert Current(plan, b, id.unit) >= Current(plan, a, id.unit);
  }

  lemma KillsKept(plan: Plan, st: State, results: map<Unit, Result>, kills: set<PodId>)
    requires KillsRecorded(plan, st) && Stepping(st) && Progress(plan, st.results, results)
    requires forall id :: id in kills ==> UnitOk(plan, id.unit) && OnRecord(plan, results, id.unit, id.attempt)
    ensures forall id :: id in st.killed + kills ==> UnitOk(plan, id.unit) && OnRecord(plan, results, id.unit, id.attempt)
  {
    forall id | id in st.killed ensures UnitOk(plan, id.unit) && OnRecord(plan, results, id.unit, id.attempt) {
      hide UnitOk, OnRecord, Progress;
      RecordedKept(plan, st.results, results, id);
    }
  }

  lemma SweptFromState(plan: Plan, st: State, env: Env)
    requires PlanOk(plan) && Sound(plan, st.results, st.pods)
    ensures SweptFrom(plan, env, st.results, st.pods, st.stamped, Sweeping(plan, st, env))
    ensures var s := Sweeping(plan, st, env);
            s.Idle() ==>
              && ActiveFrom(plan, st.results, 0) == None
              && Padded(plan, st.results, s.results)
              && (!Halted(plan, st.results) ==> UnknownsSettled(plan, s.results, 0))
  {
    Executed(plan, env, st.results, st.pods, st.stamped);
    hide UnknownsSettled, Halted, Execute, Progress, Spawned, Condemns, GangKept, LiveNodes, Holding, ActiveFrom, Padded, PodsOk, ResultsOrdered, ResultsOk;
  }

  /** A pass that leaves the run open, its record lost. */
  lemma LostPassKeeps(plan: Plan, st: State, env: Env, released: set<string>)
    requires PlanOk(plan) && Inv(plan, st) && Stepping(st) && env.claimable == st.existing - st.foreign
    requires released <= Free(Sweeping(plan, st, env))
    ensures Inv(plan, Cleaned(Landed(st, Sweeping(plan, st, env)), {}, released))
  {
    var s := Sweeping(plan, st, env);
    SweptFromState(plan, st, env);
    hide Sweeping, Execute, Sound, Free, ActiveFrom, Padded, SweptFrom, Guarded, KillsRecorded, Accepted;
    SweptSound(plan, env, st, s);
    GuardKept(plan, env, st, s, released);
    LandedShape(st, s, released);
    hide Cleaned, Landed, Conceded;
    KillsUntouched(plan, st, Cleaned(Landed(st, s), {}, released));
  }

  lemma LandedShape(st: State, s: Sweep, released: set<string>)
    ensures var next := Cleaned(Landed(st, s), {}, released);
            && next.phase == st.phase && next.results == st.results && next.pods == s.pods && next.stamped == s.stamped - released
            && next.foreign == st.foreign && next.existing == st.existing && next.conceded == Conceded(st, s.pods)
            && next.killed == st.killed && next.deleting == st.deleting && next.cancelling == st.cancelling && next.log == st.log
  {
    assert s.pods - {} == s.pods && st.killed + {} == st.killed;
    hide Conceded;
  }

  lemma SweptSound(plan: Plan, env: Env, st: State, s: Sweep)
    requires Sound(plan, st.results, st.pods) && SweptFrom(plan, env, st.results, st.pods, st.stamped, s)
    ensures Sound(plan, st.results, s.pods) && Sound(plan, s.results, s.pods)
  {
    SoundKept(plan, env, st.results, st.pods, st.stamped, s);
  }

  /** A pass that leaves the run open, its record written. */
  lemma WrittenPassKeeps(plan: Plan, st: State, env: Env, kills: set<PodId>, released: set<string>)
    requires PlanOk(plan) && Inv(plan, st) && Stepping(st) && env.claimable == st.existing - st.foreign
    requires var s := Sweeping(plan, st, env); released <= Free(s) && kills <= s.kill
    ensures Inv(plan, Cleaned(Written(st, Sweeping(plan, st, env)), kills, released))
  {
    var s := Sweeping(plan, st, env);
    SweptFromState(plan, st, env);
    WrittenKills(plan, st, env, s, kills);
    hide Sweeping, Execute, Sound, Free, ActiveFrom, Padded, SweptFrom, Guarded, Accepted, UnitOk, OnRecord;
    SweptSound(plan, env, st, s);
    GuardKept(plan, env, st, s, released);
    hide Conceded, Extended;
    FewerPods(plan, s.results, s.pods, s.stamped - released, st.foreign, st.existing, Conceded(st, s.pods), kills);
  }

  lemma WrittenKills(plan: Plan, st: State, env: Env, s: Sweep, kills: set<PodId>)
    requires Inv(plan, st) && Stepping(st) && SweptFrom(plan, env, st.results, st.pods, st.stamped, s) && kills <= s.kill
    ensures forall id :: id in st.killed + kills ==> UnitOk(plan, id.unit) && OnRecord(plan, s.results, id.unit, id.attempt)
  {
    hide Sound, Guarded, Accepted, Progress, Spawned, GangKept, UnitOk, OnRecord, LiveNodes, Holding;
    KillsKept(plan, st, s.results, kills);
  }

  // ---------------------------------------------------------------- the end of a run

  lemma {:induction false} NoneActive(plan: Plan, results: map<Unit, Result>, i: nat)
    requires ActiveFrom(plan, results, i) == None && !Halted(plan, results)
    ensures forall j :: i <= j < |plan.tests| && !plan.tests[j].scope.OtherScope? ==> AllOver(results, Units(plan, j))
    decreases |plan.tests| - i
  {
    if i < |plan.tests| { NoneActive(plan, results, i + 1); }
  }

  /** A sweep with nothing left to do, no failure and no error is an acceptance. */
  lemma FinalAccepted(plan: Plan, a: map<Unit, Result>, b: map<Unit, Result>)
    requires PlanOk(plan) && ResultsOk(plan, b) && Padded(plan, a, b) && ActiveFrom(plan, a, 0) == None
    requires !Halted(plan, a) ==> UnknownsSettled(plan, b, 0)
    requires FinalPhase(plan, b).Passed?
    ensures Accepted(plan, CutAll(b))
  {
    PaddedHalted(plan, a, b);
    PaddedActive(plan, a, b, 0);
    NoneActive(plan, b, 0);
    hide ActiveFrom, Padded;
    forall i | 0 <= i < |plan.tests| && plan.tests[i].required ensures !plan.tests[i].scope.OtherScope? {
      if plan.tests[i].scope.OtherScope? {
        UnknownBlocks(plan, b, i);
      }
    }
    forall i, k | 0 <= i < |plan.tests| && plan.tests[i].required && 0 <= k < |Units(plan, i)|
      ensures var u, c := Units(plan, i)[k], CutAll(b);
              u in c && (c[u].phase.Skipped? || (c[u].phase.Passed? && Earned(plan.tests[i].test, c[u])))
    {
      UnitsOk(plan, i);
      var u := Units(plan, i)[k];
      assert AllOver(b, Units(plan, i));
      assert Over(b, u);
      hide AllOver, Units, Halted;
      UnitAccepted(plan, b, u);
    }
  }

  lemma UnknownBlocks(plan: Plan, b: map<Unit, Result>, i: nat)
    requires ResultsOk(plan, b) && i < |plan.tests| && plan.tests[i].required
    requires plan.tests[i].scope.OtherScope? && Unit(i, []) in b
    ensures RequiredPhase(plan, b, Error)
  {
    assert b[Unit(i, [])].phase == Error;
  }

  lemma UnitAccepted(plan: Plan, b: map<Unit, Result>, u: Unit)
    requires ResultsOk(plan, b) && UnitOk(plan, u) && Over(b, u) && plan.tests[u.test].required && FinalPhase(plan, b).Passed?
    ensures var c := CutAll(b);
            u in c && (c[u].phase.Skipped? || (c[u].phase.Passed? && Earned(plan.tests[u.test].test, c[u])))
  {
    assert ResultOk(plan.tests[u.test].test, b[u]);
    hide ResultsOk, HistoryOk, Earned;
    assert b[u].phase == Failed ==> RequiredPhase(plan, b, Failed);
    assert b[u].phase == Error ==> RequiredPhase(plan, b, Error);
  }

  // ---------------------------------------------------------------- every step keeps the invariant

  lemma TerminalKeeps(plan: Plan, st: State, results: map<Unit, Result>, phase: Phase, kills: set<PodId>, released: set<string>)
    requires phase.Terminal() && (phase.Passed? ==> Accepted(plan, CutAll(results)))
    ensures Inv(plan, Terminated(st, results, phase, kills, released))
  {
    hide Accepted, CutAll;
  }

  lemma PassKeeps(plan: Plan, st: State, a: Action)
    requires PlanOk(plan) && Inv(plan, st) && a.Pass? && Enabled(plan, st, a)
    ensures Inv(plan, Apply(plan, st, a))
  {
    var s := Sweeping(plan, st, a.env);
    var fate := FateOf(s, a.env.launch, a.commit);
    hide Sweeping, Accepted, Sound, Guarded, KillsRecorded, FinalPhase, CutAll, Free, LoadOffFirst, Cleaned, Landed, Written;
    match fate
    case Finalize =>
      assert Sound(plan, st.results, st.pods);
      SweptFromState(plan, st, a.env);
      ProgressOk(plan, a.env, st, s);
      if FinalPhase(plan, s.results).Passed? { FinalAccepted(plan, st.results, s.results); }
      FinalPhaseEnds(plan, s.results);
      TerminalKeeps(plan, Written(st, s), s.results, FinalPhase(plan, s.results), a.kills, a.released);
    case Record =>
      WrittenPassKeeps(plan, st, a.env, a.kills, a.released);
    case Persist =>
      WrittenPassKeeps(plan, st, a.env, {}, a.released);
    case _ =>
      LostPassKeeps(plan, st, a.env, a.released);
  }

  lemma ProgressOk(plan: Plan, env: Env, st: State, s: Sweep)
    requires SweptFrom(plan, env, st.results, st.pods, st.stamped, s)
    ensures ResultsOk(plan, s.results)
  {
  }

  lemma FinalPhaseEnds(plan: Plan, results: map<Unit, Result>)
    ensures FinalPhase(plan, results).Terminal()
  {
  }

  lemma DrainKeeps(plan: Plan, st: State, a: Action)
    requires PlanOk(plan) && Inv(plan, st) && a.Drain? && Enabled(plan, st, a)
    ensures Inv(plan, Apply(plan, st, a))
  {
    var s := Sweeping(plan, st, a.env);
    hide Sweeping, Accepted, Sound, Guarded, KillsRecorded, CutAll, Free, LoadOffFirst, Cleaned, Landed, Written, SettleRemaining, Terminated;
    if DrainEnds(s, a.immediate, a.dirty, a.commit) {
      TerminalKeeps(plan, Written(st, s), SettleRemaining(plan, s.results, Cancelled), Cancelled, a.kills, a.released);
    } else if s.ok && a.commit {
      WrittenPassKeeps(plan, st, a.env, {}, a.released);
    } else {
      LostPassKeeps(plan, st, a.env, a.released);
    }
  }

  lemma PodMovesKeeps(plan: Plan, st: State, id: PodId, pod: Pod)
    requires PlanOk(plan) && Inv(plan, st) && Enabled(plan, st, PodMoves(id, pod))
    ensures Inv(plan, Apply(plan, st, PodMoves(id, pod)))
  {
    hide Accepted, PodOk, ResultsOk, ResultsOrdered, KillsRecorded, NodeSet, Waived, Current, Over;
    KillsUntouched(plan, st, st.(pods := st.pods[id := pod]));
  }

  lemma KillsUntouched(plan: Plan, st: State, st': State)
    requires KillsRecorded(plan, st) && st'.killed == st.killed && st'.results == st.results
    requires (st.phase.Terminal() ==> st'.phase.Terminal()) && (st.deleting ==> st'.deleting)
    ensures KillsRecorded(plan, st')
  {
  }

  lemma NodeGoneKeeps(plan: Plan, st: State, node: string)
    requires PlanOk(plan) && Inv(plan, st)
    ensures Inv(plan, Apply(plan, st, NodeGone(node)))
  {
    hide Accepted, Sound, KillsRecorded, Guarded;
    if !st.phase.Terminal() { NodeGoneGuarded(plan, st, node); }
    KillsUntouched(plan, st, Apply(plan, st, NodeGone(node)));
  }

  lemma NodeGoneGuarded(plan: Plan, st: State, node: string)
    requires Guarded(plan, st.results, st.pods, st.stamped, st.foreign, st.existing, st.conceded)
    ensures Guarded(plan, st.results, st.pods, st.stamped - {node}, st.foreign - {node}, st.existing - {node}, st.conceded)
  {
    hide NodeSet, Waived, Current, Over;
    forall id | id in st.pods && st.pods[id].Live() && !Over(st.results, id.unit)
      ensures NodeSet(id.unit) * (st.existing - {node}) <= (st.stamped - {node}) + Waived(st.conceded, id)
    {
      WithoutOne(NodeSet(id.unit), st.existing, st.stamped, Waived(st.conceded, id), node);
    }
  }

  lemma WithoutOne<T>(a: set<T>, e: set<T>, s: set<T>, w: set<T>, x: T)
    requires a * e <= s + w
    ensures a * (e - {x}) <= (s - {x}) + w
  {
    forall y | y in a * (e - {x}) ensures y in (s - {x}) + w { assert y in a * e; }
  }

  lemma OthersKeep(plan: Plan, st: State, a: Action)
    requires PlanOk(plan) && Inv(plan, st) && Enabled(plan, st, a) && (a.OthersStamp? || a.OthersRelease?)
    ensures Inv(plan, Apply(plan, st, a))
  {
    hide Accepted, Sound, KillsRecorded, Shielded, Apart;
    KillsUntouched(plan, st, Apply(plan, st, a));
  }

  lemma CleanUpKeeps(plan: Plan, st: State, kills: set<PodId>, released: set<string>)
    requires PlanOk(plan) && Inv(plan, st) && Enabled(plan, st, CleanUp(kills, released))
    ensures Inv(plan, Apply(plan, st, CleanUp(kills, released)))
  {
    hide Accepted, Sound, Guarded, OnRecord, UnitOk;
    if !st.phase.Terminal() {
      FewerPods(plan, st.results, st.pods, st.stamped, st.foreign, st.existing, st.conceded, kills);
      if released != {} { NoneLeft(plan, st, kills, released); }
      assert st.stamped - {} == st.stamped;
    }
  }

  /** With no live pod left nothing needs shielding. */
  lemma NoneLeft(plan: Plan, st: State, kills: set<PodId>, released: set<string>)
    requires Guarded(plan, st.results, st.pods, st.stamped, st.foreign, st.existing, st.conceded) && kills == LivePods(st.pods)
    ensures Guarded(plan, st.results, st.pods - kills, st.stamped - released, st.foreign, st.existing, st.conceded)
  {
    hide NodeSet, Waived, Current, Over;
    assert forall id :: id in st.pods - kills ==> !st.pods[id].Live();
  }

  lemma StepKeeps(plan: Plan, st: State, a: Action)
    requires PlanOk(plan) && Inv(plan, st) && Enabled(plan, st, a)
    ensures Inv(plan, Apply(plan, st, a))
  {
    match a
    case PodMoves(id, pod) => PodMovesKeeps(plan, st, id, pod);
    case PodGone(id) =>
      hide Accepted, Sound, Guarded, KillsRecorded;
      if !st.phase.Terminal() { FewerPods(plan, st.results, st.pods, st.stamped, st.foreign, st.existing, st.conceded, {id}); }
      KillsUntouched(plan, st, Apply(plan, st, a));
    case NodeGone(node) => NodeGoneKeeps(plan, st, node);
    case OthersStamp(_) => OthersKeep(plan, st, a);
    case OthersRelease(_) => OthersKeep(plan, st, a);
    case RequestDeletion =>
      hide Accepted, Sound, Guarded, KillsRecorded;
      KillsUntouched(plan, st, Apply(plan, st, a));
    case MarkCancelling =>
      hide Accepted, Sound, Guarded, KillsRecorded;
      KillsUntouched(plan, st, Apply(plan, st, a));
    case Pass(_, _, _, _) => hide Inv; PassKeeps(plan, st, a);
    case Drain(_, _, _, _, _, _) => hide Inv; DrainKeeps(plan, st, a);
    case Expire(kills, released) =>
      hide Inv, Terminated;
      TerminalKeeps(plan, st, SettleRemaining(plan, st.results, Error), Error, kills, released);
    case CleanUp(kills, released) => hide Inv; CleanUpKeeps(plan, st, kills, released);
  }
}
