/** The node cap over whole runs. */
module RunCap {
  import opened Base
  import opened Verdict
  import opened Soak
  import opened Attempts
  import opened AttemptHistory
  import opened Execution
  import opened ExecutionFacts
  import opened SweepFacts
  import opened Interlock
  import opened SweepOutcome
  import opened RunProtocol
  import opened RunInvariant
  import opened RunLaws

  // ---------------------------------------------------------------- hypotheses

  ghost predicate AllBuild(env: Env) {
    forall id :: env.builds(id)
  }

  /** The cap is fixed, pods always build, and an execution is durably open before its pod ends. */
  ghost predicate Steady(cap: int, st: State, a: Action) {
    match a
    case Pass(env, _, _, _) => env.cap == cap && AllBuild(env)
    case Drain(env, _, _, _, _, _) => env.cap == cap && AllBuild(env)
    case PodMoves(id, pod) => id in st.pods && st.pods[id].Live() && !pod.Live() ==> id.unit in st.results
    case _ => true
  }

  ghost predicate SteadyTrace(plan: Plan, cap: int, st: State, trace: seq<Action>)
    requires PlanOk(plan)
    decreases |trace|
  {
    trace == [] || (Steady(cap, st, trace[0]) && SteadyTrace(plan, cap, Apply(plan, st, trace[0]), trace[1..]))
  }

  // ---------------------------------------------------------------- the invariant

  ghost predicate EndsRecorded(results: map<Unit, Result>, pods: map<PodId, Pod>) {
    forall id :: id in pods && !pods[id].Live() ==> id.unit in results
  }

  ghost predicate UnderCap(cap: int, st: State) {
    && |LiveNodes(st.pods)| <= cap
    && (!st.phase.Terminal() ==> |Committed(st.results, st.pods)| <= cap && EndsRecorded(st.results, st.pods))
  }

  // ---------------------------------------------------------------- a result is opened only for a pod

  lemma QuietStart(plan: Plan, env: Env, s: Sweep, u: Unit)
    requires UnitOk(plan, u) && AllBuild(env) && PodId(u, 0, Current(plan, s.results, u)) !in s.pods
    ensures Advance(plan, env, s, u).results == s.results
  {
    if !Over(s.results, u) {
      var id := PodId(u, 0, Current(plan, s.results, u));
      assert env.builds(id);
      hide StartNode, StartUnit, WatchNode, GateUnit, HarvestPair, HarvestGroup, Current, AllBuild, AnyLive, NodeSet, Complete;
      if Gang(plan, u.test) {
        StartUnitResults(plan, env, Claimed(plan, s, u), u, id);
      } else {
        StartNodeResults(plan, env, s, u, id);
      }
    }
  }

  lemma StartUnitResults(plan: Plan, env: Env, s: Sweep, u: Unit, id: PodId)
    requires u.test < |plan.tests| && id == PodId(u, 0, Current(plan, s.results, u)) && env.builds(id)
    ensures StartUnit(plan, env, s, u).results == s.results
  {
    hide LaunchUnit, Current, NodeSet;
  }

  ghost predicate HasPod(pods: map<PodId, Pod>, u: Unit) {
    exists id :: id in pods && id.unit == u
  }

  lemma {:induction false} OpenedForAPod(plan: Plan, env: Env, i: nat, s: Sweep, t: Sweep, units: seq<Unit>)
    requires Swept(plan, env, i, s, t) && OfTest(plan, i, units) && AllBuild(env)
    requires forall v :: v in t.results && v !in s.results ==> HasPod(t.pods, v)
    ensures var s' := SweepUnits(plan, env, t, units);
            forall v :: v in s'.results && v !in s.results ==> HasPod(s'.pods, v)
    decreases |units|
  {
    hide Swept, Advance, UnitOk, HasPod, AllBuild, Visited, Over;
    if units != [] && t.ok {
      var u := units[0];
      assert UnitOk(plan, u) && u.test == i;
      SweptStep(plan, env, i, s, t, u);
      OpenedStep(plan, env, s, t, u);
      OpenedForAPod(plan, env, i, s, Advance(plan, env, t, u), units[1..]);
    }
  }

  lemma OpenedStep(plan: Plan, env: Env, s: Sweep, t: Sweep, u: Unit)
    requires UnitOk(plan, u) && AllBuild(env)
    requires Over(t.results, u) ==> Advance(plan, env, t, u) == t
    requires !Over(t.results, u) ==> Visited(plan, env, t, u, Advance(plan, env, t, u))
    requires forall v :: v in t.results && v !in s.results ==> HasPod(t.pods, v)
    ensures var t' := Advance(plan, env, t, u);
            forall v :: v in t'.results && v !in s.results ==> HasPod(t'.pods, v)
  {
    var t' := Advance(plan, env, t, u);
    var id := PodId(u, 0, Current(plan, t.results, u));
    if id !in t.pods { QuietStart(plan, env, t, u); }
    hide Advance, AllBuild, BusyGrows, KillsGrow, Current, ResultOk;
    if !Over(t.results, u) {
      forall v | v in t'.results && v !in s.results ensures HasPod(t'.pods, v) {
        if v in t.results {
          var w :| w in t.pods && w.unit == v;
          assert w in t'.pods;
        } else {
          assert v == u && id in t.pods;
          assert id in t'.pods;
        }
      }
    }
  }

  lemma OpenedBySweep(plan: Plan, env: Env, a: map<Unit, Result>, pods: map<PodId, Pod>, stamped: set<string>)
    requires PlanOk(plan) && ResultsOk(plan, a) && AllBuild(env)
    ensures var s := Execute(plan, env, a, pods, stamped);
            forall v :: v in s.results && v !in a && v.nodes != [] ==> HasPod(s.pods, v)
  {
    PaddedSelf(plan, a);
    var s0 := SweepShape(plan, env, a, Seeded(a, pods, stamped), 0);
    var s := Execute(plan, env, a, pods, stamped);
    assert forall v :: v in s0.results && v !in a ==> v.nodes == [];
    hide ResultsOk, Padded, SweepUnits, AllBuild, HasPod, LiveNodes, Holding;
    match ActiveFrom(plan, a, 0)
    case None =>
    case Some(k) =>
      SweptNothing(plan, env, k, s0);
      OpenedForAPod(plan, env, k, s0, s0, Units(plan, k));
  }

  // ---------------------------------------------------------------- one pass

  lemma EndsKept(plan: Plan, env: Env, a: map<Unit, Result>, pods: map<PodId, Pod>, stamped: set<string>, s: Sweep)
    requires Spawned(plan, env, a, pods, stamped, s) && EndsRecorded(a, pods)
    ensures EndsRecorded(a, s.pods)
  {
    forall id | id in s.pods && !s.pods[id].Live() ensures id.unit in a {
      assert id !in pods ==> NewPod(plan, env, id.unit.test, Seeded(a, pods, stamped), s, id);
    }
  }

  lemma CommittedForward(plan: Plan, a: map<Unit, Result>, b: map<Unit, Result>, pods: map<PodId, Pod>)
    requires Progress(plan, a, b) && EndsRecorded(a, pods)
    requires forall v :: v in b && v !in a && v.nodes != [] ==> HasPod(pods, v)
    ensures Committed(b, pods) <= Committed(a, pods)
  {
    hide ResultsOk, UnitOk, Ordered, Current;
    forall n | n in Holding(b) ensures n in Committed(a, pods) {
      var u :| u in b && !b[u].phase.Terminal() && n in u.nodes;
      if u in a {
        assert n in Holding(a);
      } else {
        var id :| id in pods && id.unit == u;
        assert pods[id].Live();
        assert n in Reserved(a, pods);
      }
    }
    forall n | n in Reserved(b, pods) ensures n in Reserved(a, pods) {
      var id :| id in pods && pods[id].Live() && !Over(b, id.unit) && n in id.unit.nodes;
      assert !Over(a, id.unit);
    }
  }

  lemma PassUnderCap(plan: Plan, cap: int, st: State, env: Env)
    requires PlanOk(plan) && Inv(plan, st) && Stepping(st) && UnderCap(cap, st) && env.cap == cap && AllBuild(env)
    ensures var s := Sweeping(plan, st, env);
            && |LiveNodes(s.pods)| <= cap
            && |Committed(st.results, s.pods)| <= cap && EndsRecorded(st.results, s.pods)
            && |Committed(s.results, s.pods)| <= cap && EndsRecorded(s.results, s.pods)
  {
    assert Sound(plan, st.results, st.pods);
    var s := Sweeping(plan, st, env);
    assert ResultsOk(plan, st.results);
    OneSweepUnderTheCap(plan, env, st.results, st.pods, st.stamped);
    SweptFromState(plan, st, env);
    OpenedBySweep(plan, env, st.results, st.pods, st.stamped);
    hide Execute, Sound, Inv, Overhang, ActiveFrom, Padded, UnknownsSettled, Halted, HasPod, LiveNodes, Holding, Reserved, ResultsOk, Condemns, GangKept;
    CommittedIsBusy(plan, env, st.results, st.pods, st.stamped, s);
    SubsetSize(Committed(st.results, s.pods), s.busy);
    SubsetSize(LiveNodes(s.pods), s.busy);
    EndsKept(plan, env, st.results, st.pods, st.stamped, s);
    hide Spawned;
    CommittedForward(plan, st.results, s.results, s.pods);
    SubsetSize(Committed(s.results, s.pods), Committed(st.results, s.pods));
    hide Committed;
  }

  lemma FewerCommitted(results: map<Unit, Result>, pods: map<PodId, Pod>, kills: set<PodId>)
    ensures LiveNodes(pods - kills) <= LiveNodes(pods)
    ensures Committed(results, pods - kills) <= Committed(results, pods)
    ensures EndsRecorded(results, pods) ==> EndsRecorded(results, pods - kills)
  {
  }

  lemma CleanedUnderCap(cap: int, st: State, kills: set<PodId>, released: set<string>)
    requires UnderCap(cap, st)
    ensures UnderCap(cap, Cleaned(st, kills, released))
  {
    FewerCommitted(st.results, st.pods, kills);
    hide LiveNodes, Committed, EndsRecorded;
    SubsetSize(LiveNodes(st.pods - kills), LiveNodes(st.pods));
    SubsetSize(Committed(st.results, st.pods - kills), Committed(st.results, st.pods));
  }

  lemma MovedUnderCap(cap: int, st: State, id: PodId, pod: Pod)
    requires UnderCap(cap, st) && id in st.pods && (!st.pods[id].Live() ==> !pod.Live())
    requires st.pods[id].Live() && !pod.Live() ==> id.unit in st.results
    ensures UnderCap(cap, st.(pods := st.pods[id := pod]))
  {
    var pods := st.pods[id := pod];
    MovedCommitted(st.results, st.pods, id, pod);
    SubsetSize(LiveNodes(pods), LiveNodes(st.pods));
    SubsetSize(Committed(st.results, pods), Committed(st.results, st.pods));
    hide LiveNodes, Committed;
  }

  lemma MovedCommitted(results: map<Unit, Result>, pods: map<PodId, Pod>, id: PodId, pod: Pod)
    requires id in pods && (!pods[id].Live() ==> !pod.Live())
    ensures LiveNodes(pods[id := pod]) <= LiveNodes(pods)
    ensures Committed(results, pods[id := pod]) <= Committed(results, pods)
  {
    var q := pods[id := pod];
    forall n | n in LiveNodes(q) ensures n in LiveNodes(pods) {
      var x :| x in q && q[x].Live() && x.Node() == n;
      assert pods[x].Live();
    }
    forall n | n in Reserved(results, q) ensures n in Reserved(results, pods) {
      var x :| x in q && q[x].Live() && !Over(results, x.unit) && n in x.unit.nodes;
      assert pods[x].Live();
    }
  }

  lemma StepUnderCap(plan: Plan, cap: int, st: State, a: Action)
    requires PlanOk(plan) && Inv(plan, st) && Enabled(plan, st, a) && UnderCap(cap, st) && Steady(cap, st, a)
    ensures UnderCap(cap, Apply(plan, st, a))
  {
    hide Inv, LiveNodes, Committed, EndsRecorded, FinalPhase, SettleRemaining, CutAll, LoadOffFirst, Free, Cleaned, AllBuild, Conceded, Extended;
    match a
    case PodMoves(id, pod) => MovedUnderCap(cap, st, id, pod);
    case PodGone(id) => FewerUnderCap(cap, st, {id});
    case Pass(env, commit, kills, released) => PassStep(plan, cap, st, env, commit, kills, released);
    case Drain(env, immediate, dirty, commit, kills, released) => DrainStep(plan, cap, st, env, immediate, dirty, commit, kills, released);
    case Expire(kills, released) =>
      CleanedUnderCap(cap, st.(phase := Error, results := CutAll(SettleRemaining(plan, st.results, Error))), kills, released);
    case CleanUp(kills, released) => CleanedUnderCap(cap, st, kills, released);
    case _ =>
  }

  lemma PassStep(plan: Plan, cap: int, st: State, env: Env, commit: bool, kills: set<PodId>, released: set<string>)
    requires PlanOk(plan) && Inv(plan, st) && Stepping(st) && UnderCap(cap, st) && env.cap == cap && AllBuild(env)
    ensures var s := Sweeping(plan, st, env); UnderCap(cap, AfterPass(plan, st, s, FateOf(s, env.launch, commit), kills, released))
  {
    PassUnderCap(plan, cap, st, env);
    var s := Sweeping(plan, st, env);
    hide Inv, Sweeping, LiveNodes, Committed, EndsRecorded, FinalPhase, CutAll, Cleaned, AllBuild, Conceded, Extended;
    match FateOf(s, env.launch, commit)
    case Finalize =>
      FinalPhaseEnds(plan, s.results);
      CleanedUnderCap(cap, Written(st, s).(phase := FinalPhase(plan, s.results), results := CutAll(s.results)), kills, released);
    case Record => CleanedUnderCap(cap, Written(st, s), kills, released);
    case Persist => CleanedUnderCap(cap, Written(st, s), {}, released);
    case _ => CleanedUnderCap(cap, Landed(st, s), {}, released);
  }

  lemma DrainStep(plan: Plan, cap: int, st: State, env: Env, immediate: bool, dirty: bool, commit: bool, kills: set<PodId>, released: set<string>)
    requires PlanOk(plan) && Inv(plan, st) && Stepping(st) && UnderCap(cap, st) && env.cap == cap && AllBuild(env)
    ensures var s := Sweeping(plan, st, env);
            UnderCap(cap, AfterDrain(plan, st, s, DrainEnds(s, immediate, dirty, commit), commit, kills, released))
  {
    PassUnderCap(plan, cap, st, env);
    var s := Sweeping(plan, st, env);
    hide Inv, Sweeping, LiveNodes, Committed, EndsRecorded, SettleRemaining, CutAll, Cleaned, AllBuild, Conceded, Extended;
    assert UnderCap(cap, Landed(st, s)) && UnderCap(cap, Written(st, s));
    assert UnderCap(cap, Written(st, s).(phase := Cancelled, results := CutAll(SettleRemaining(plan, s.results, Cancelled))));
    hide UnderCap, DrainEnds;
    if DrainEnds(s, immediate, dirty, commit) {
      CleanedUnderCap(cap, Written(st, s).(phase := Cancelled, results := CutAll(SettleRemaining(plan, s.results, Cancelled))), kills, released);
    } else if s.ok && commit {
      CleanedUnderCap(cap, Written(st, s), {}, released);
    } else {
      CleanedUnderCap(cap, Landed(st, s), {}, released);
    }
  }

  lemma FewerUnderCap(cap: int, st: State, gone: set<PodId>)
    requires UnderCap(cap, st)
    ensures UnderCap(cap, st.(pods := st.pods - gone))
  {
    FewerCommitted(st.results, st.pods, gone);
    hide LiveNodes, Committed, EndsRecorded;
    SubsetSize(LiveNodes(st.pods - gone), LiveNodes(st.pods));
    SubsetSize(Committed(st.results, st.pods - gone), Committed(st.results, st.pods));
  }

  lemma {:induction false} TraceUnderCap(plan: Plan, cap: int, st: State, trace: seq<Action>)
    requires PlanOk(plan) && Inv(plan, st) && UnderCap(cap, st) && Possible(plan, st, trace) && SteadyTrace(plan, cap, st, trace)
    ensures UnderCap(cap, RunProtocol.After(plan, st, trace))
    decreases |trace|
  {
    if trace != [] {
      hide Inv, UnderCap, Enabled, Steady, Apply;
      RunInvariant.StepKeeps(plan, st, trace[0]);
      StepUnderCap(plan, cap, st, trace[0]);
      TraceUnderCap(plan, cap, Apply(plan, st, trace[0]), trace[1..]);
    }
  }

  /** At a fixed cap, with pods that build and executions on record before their pods end, the nodes under load never outnumber the cap. */
  lemma LoadStaysUnderTheCap(plan: Plan, cap: nat, existing: set<string>, trace: seq<Action>)
    requires PlanOk(plan) && Possible(plan, Begun(existing), trace) && SteadyTrace(plan, cap, Begun(existing), trace)
    ensures var pods := RunProtocol.After(plan, Begun(existing), trace).pods;
            |set id | id in pods && pods[id].phase != PodSucceeded && pods[id].phase != PodFailed :: id.Node()| <= cap
  {
    BegunInv(plan, existing);
    var st := Begun(existing);
    assert LiveNodes(st.pods) == {} && Committed(st.results, st.pods) == {};
    TraceUnderCap(plan, cap, st, trace);
    var pods := RunProtocol.After(plan, st, trace).pods;
    assert LiveNodes(pods) == set id | id in pods && pods[id].phase != PodSucceeded && pods[id].phase != PodFailed :: id.Node();
  }
}
