/** Concrete runs that show why the conditions of the general laws are there. */
module RunExamples {
  import opened Base
  import opened Verdict
  import opened Soak
  import opened Attempts
  import opened AttemptHistory
  import opened AttemptVerdict
  import opened Execution
  import opened ExecutionFacts
  import opened SweepFacts
  import opened Interlock
  import opened SweepOutcome
  import opened RunProtocol
  import opened RunInvariant
  import opened RunEnd

  // ---------------------------------------------------------------- the stage

  const TWICE := Test([], Spec(0, 0, false), Some(2))
  const ONCE := Test([], Spec(0, 0, false), None)

  /** One repeated test on each of two nodes. */
  const PLAN := Plan([Planned("burn", true, NodeScope, TWICE, false)], ["a", "b"], false, (m: string) => Last)

  /** One test of the link between them. */
  const LINK := Plan([Planned("link", true, PairScope, ONCE, false)], ["a", "b"], false, (m: string) => Last)

  const A := Unit(0, ["a"])
  const B := Unit(0, ["b"])
  const AB := Unit(0, ["a", "b"])

  const CLEAN := Parsed(ExitPass, map[], {}, 0)

  const READY := Pod(PodRunning, true, true, false)
  const ENDED := Pod(PodSucceeded, true, false, true)

  /** A quiet cluster: everything is created, nothing is overdue, every runner reports a clean exit. */
  function World(cap: int, limit: int, claimable: set<string>, builds: PodId -> bool): Env {
    Env(true, cap, limit, 0, claimable, builds, (n: string) => true, (id: PodId) => true,
        (id: PodId) => false, (id: PodId) => Harvest(CLEAN, false), (u: Unit) => CLEAN, (id: PodId) => None)
  }

  function All(): PodId -> bool {
    (id: PodId) => true
  }

  function Again(env: Env): Action {
    Pass(env, true, {}, {})
  }

  /** A trace given with the states it goes through. */
  ghost predicate Runs(plan: Plan, states: seq<State>, trace: seq<Action>)
    requires PlanOk(plan)
  {
    && |states| == |trace| + 1
    && forall i :: 0 <= i < |trace| ==> Enabled(plan, states[i], trace[i]) && states[i + 1] == Apply(plan, states[i], trace[i])
  }

  lemma {:induction false} RunsPossible(plan: Plan, states: seq<State>, trace: seq<Action>)
    requires PlanOk(plan) && Runs(plan, states, trace)
    ensures Possible(plan, states[0], trace) && RunProtocol.After(plan, states[0], trace) == states[|trace|]
    decreases |trace|
  {
    hide Enabled, Apply;
    if trace != [] {
      assert Enabled(plan, states[0], trace[0]) && states[1] == Apply(plan, states[0], trace[0]);
      forall i | 0 <= i < |trace| - 1
        ensures Enabled(plan, states[1..][i], trace[1..][i]) && states[1..][i + 1] == Apply(plan, states[1..][i], trace[1..][i])
      {
        assert states[1..][i] == states[i + 1] && trace[1..][i] == trace[i + 1];
      }
      RunsPossible(plan, states[1..], trace[1..]);
    }
  }

  /** An open run over the two nodes, with these results, pods and stamps. */
  predicate Here(st: State, results: map<Unit, Result>, pods: map<PodId, Pod>, stamped: set<string>, foreign: set<string>) {
    && Stepping(st) && !st.cancelling && st.existing == {"a", "b"} && st.foreign == foreign
    && st.results == results && st.pods == pods && st.stamped == stamped
  }

  /** A pass that works on something and writes its record. */
  lemma PassTo(plan: Plan, st: State, results: map<Unit, Result>, pods: map<PodId, Pod>, stamped: set<string>, foreign: set<string>, env: Env)
    requires PlanOk(plan) && Here(st, results, pods, stamped, foreign) && env.launch && env.claimable == {"a", "b"} - foreign
    requires var s := Execute(plan, env, results, pods, stamped); s.ok && (s.running || s.pending || s.harvested)
    ensures Enabled(plan, st, Again(env))
    ensures var s := Execute(plan, env, results, pods, stamped);
            Here(Apply(plan, st, Again(env)), s.results, s.pods, s.stamped, foreign)
  {
    hide Execute, Conceded, Extended;
    var s := Execute(plan, env, results, pods, stamped);
    assert s.pods - {} == s.pods && s.stamped - {} == s.stamped;
  }

  lemma PodTo(plan: Plan, st: State, results: map<Unit, Result>, pods: map<PodId, Pod>, stamped: set<string>, foreign: set<string>,
              id: PodId, pod: Pod)
    requires PlanOk(plan) && Here(st, results, pods, stamped, foreign) && id in pods && pods[id].Live()
    ensures Enabled(plan, st, PodMoves(id, pod))
    ensures Here(Apply(plan, st, PodMoves(id, pod)), results, pods[id := pod], stamped, foreign)
  {
  }

  lemma BegunHere()
    ensures Here(Begun({"a", "b"}), map[], map[], {}, {})
  {
  }

  lemma TwoSteps(plan: Plan, st: State, a: Action, b: Action)
    requires PlanOk(plan) && Enabled(plan, st, a) && Enabled(plan, Apply(plan, st, a), b)
    ensures Possible(plan, st, [a, b]) && RunProtocol.After(plan, st, [a, b]) == Apply(plan, Apply(plan, st, a), b)
  {
    hide Enabled, Apply;
    var st1 := Apply(plan, st, a);
    RunsPossible(plan, [st, st1, Apply(plan, st1, b)], [a, b]);
  }

  lemma {:induction false} Joined(plan: Plan, st: State, first: seq<Action>, second: seq<Action>)
    requires PlanOk(plan) && Possible(plan, st, first) && Possible(plan, RunProtocol.After(plan, st, first), second)
    ensures Possible(plan, st, first + second)
    ensures RunProtocol.After(plan, st, first + second) == RunProtocol.After(plan, RunProtocol.After(plan, st, first), second)
    decreases |first|
  {
    hide Enabled, Apply;
    if first == [] {
      assert first + second == second;
    } else {
      assert (first + second)[1..] == first[1..] + second;
      Joined(plan, Apply(plan, st, first[0]), first[1..], second);
    }
  }

  // ---------------------------------------------------------------- two nodes under a cap

  lemma TwoVisits(env: Env, s: Sweep, t: Sweep, s': Sweep)
    requires s.ok && t == Advance(PLAN, env, s, A) && t.ok && s' == Advance(PLAN, env, t, B) && !s'.Idle()
    ensures SweepTests(PLAN, env, s, 0) == s'
  {
    hide Advance;
    assert ["a", "b"][1..] == ["b"];
    assert Units(PLAN, 0) == [A, B];
    assert [A, B][1..] == [B] && [B][1..] == [];
    assert SweepUnits(PLAN, env, s', []) == s';
    assert SweepUnits(PLAN, env, t, [B]) == SweepUnits(PLAN, env, s', []);
    assert SweepUnits(PLAN, env, s, [A, B]) == SweepUnits(PLAN, env, t, [B]);
  }

  /** A result after one outcome. */
  function First(parsed: Parsed, limit: int): Result {
    Step(PLAN.rules, TWICE, New(TWICE), Finish(parsed, limit))
  }

  lemma CleanPasses()
    ensures OutcomePhase(TWICE, CLEAN).Passed? && OutcomePhase(ONCE, CLEAN).Passed? && OutcomePhase(TWICE, MACHINERY_ERROR).Error?
  {
  }

  lemma FirstIsOpen()
    ensures First(CLEAN, 0).phase.Running? && NextNumber(First(CLEAN, 0).attempts) == 2
    ensures First(MACHINERY_ERROR, 1).phase.Running? && NextNumber(First(MACHINERY_ERROR, 1).attempts) == 2
  {
    NewOk(TWICE);
    CleanPasses();
    hide Completed, HistoryOk, AttemptOutcome, Earned;
    RepeatCounts(PLAN.rules, TWICE, New(TWICE), CLEAN, 0);
    ErrorCounts(PLAN.rules, TWICE, New(TWICE), MACHINERY_ERROR, 1);
    NumbersMoveOn(PLAN.rules, TWICE, New(TWICE), Finish(CLEAN, 0));
    NumbersMoveOn(PLAN.rules, TWICE, New(TWICE), Finish(MACHINERY_ERROR, 1));
  }

  /** What the first node's half-done result and the second node's pod lead to: both nodes under load. */
  lemma HalfDoneSweep(env: Env, r: Result, pods: map<PodId, Pod>, stamped: set<string>)
    requires env == World(1, env.limit, {"a", "b"}, All())
    requires r.phase.Running? && NextNumber(r.attempts) == 2
    requires PodId(B, 0, 1) in pods && pods[PodId(B, 0, 1)] == NEW_POD && PodId(A, 0, 2) !in pods
    ensures var s := Execute(PLAN, env, map[A := r], pods, stamped);
            s.ok && s.running && {"a", "b"} <= LiveNodes(s.pods)
  {
    var s := Seeded(map[A := r], pods, stamped);
    assert A in s.results && "a" in A.nodes;
    assert "a" in Holding(s.results);
    assert PodId(B, 0, 1).Node() in LiveNodes(pods);
    var t := Advance(PLAN, env, s, A);
    assert t == s.(stamped := stamped + {"a"}, pods := pods[PodId(A, 0, 2) := NEW_POD], busy := s.busy + {"a"}, running := true);
    var s' := Advance(PLAN, env, t, B);
    assert s' == t.(busy := t.busy + {"b"});
    TwoVisits(env, s, t, s');
    assert PodId(A, 0, 2).Node() == "a" && PodId(B, 0, 1).Node() == "b";
    assert s'.pods[PodId(A, 0, 2)].Live() && s'.pods[PodId(B, 0, 1)].Live();
  }

  lemma AtLeastTwo(s: set<string>)
    requires {"a", "b"} <= s
    ensures |s| >= 2
  {
    SubsetSize({"a", "b"}, s);
  }

  // --- a pod first seen already ended

  lemma StartSweep(env: Env)
    requires env == World(1, 0, {"a", "b"}, All())
    ensures var s := Execute(PLAN, env, map[], map[], {});
            s.results == map[] && s.pods == map[PodId(A, 0, 1) := NEW_POD] && s.ok && s.running
  {
    var s := Seeded(map[], map[], {});
    assert s.busy == {};
    NodeStarts(env, s, A);
    var t := Advance(PLAN, env, s, A);
    assert t.busy == {"a"};
    TwoVisits(env, s, t, Advance(PLAN, env, t, B));
  }

  /** With room under the cap a node starts. */
  lemma NodeStarts(env: Env, t: Sweep, u: Unit)
    requires env == World(env.cap, env.limit, {"a", "b"}, env.builds) && (u == A || u == B) && env.builds(PodId(u, 0, 1))
    requires t.ok && |t.busy| < env.cap && u !in t.results && PodId(u, 0, 1) !in t.pods
    ensures var s := Advance(PLAN, env, t, u);
            s == t.(pods := t.pods[PodId(u, 0, 1) := NEW_POD], stamped := s.stamped, busy := t.busy + {u.nodes[0]}, running := true)
  {
    assert Current(PLAN, t.results, u) == 1;
  }

  lemma SeenEndedVisit(env: Env, s: Sweep)
    requires env == World(1, 0, {"a", "b"}, All()) && s.ok && s.results == map[]
    requires PodId(A, 0, 1) in s.pods && s.pods[PodId(A, 0, 1)] == ENDED
    ensures var t := Advance(PLAN, env, s, A);
            t == s.(results := map[A := First(CLEAN, 0)], log := t.log, harvested := true)
  {
    hide Step;
    assert Current(PLAN, s.results, A) == 1;
  }

  lemma SeenEndedSweep(env: Env, stamped: set<string>)
    requires env == World(1, 0, {"a", "b"}, All())
    ensures var s := Execute(PLAN, env, map[], map[PodId(A, 0, 1) := ENDED], stamped);
            && s.results == map[A := First(CLEAN, 0)]
            && s.pods == map[PodId(A, 0, 1) := ENDED, PodId(B, 0, 1) := NEW_POD]
            && s.ok && s.running
  {
    var pods := map[PodId(A, 0, 1) := ENDED];
    var s := Seeded(map[], pods, stamped);
    assert s.busy == {};
    SeenEndedVisit(env, s);
    hide First;
    var t := Advance(PLAN, env, s, A);
    NodeStarts(env, t, B);
    TwoVisits(env, s, t, Advance(PLAN, env, t, B));
  }

  /** A run at a cap of one that has half a result for the first node and a pod on the second. */
  predicate HalfWay(st: State, r: Result) {
    && Here(st, map[A := r], st.pods, st.stamped, {}) && r.phase.Running? && NextNumber(r.attempts) == 2
    && PodId(B, 0, 1) in st.pods && st.pods[PodId(B, 0, 1)] == NEW_POD && PodId(A, 0, 2) !in st.pods
  }

  lemma HalfWayOverloads(st: State, r: Result, limit: int)
    requires HalfWay(st, r)
    ensures var pass := Again(World(1, limit, {"a", "b"}, All()));
            Enabled(PLAN, st, pass) && |LiveNodes(Apply(PLAN, st, pass).pods)| >= 2
  {
    var env := World(1, limit, {"a", "b"}, All());
    HalfDoneSweep(env, r, st.pods, st.stamped);
    hide Execute, LiveNodes, Enabled, Apply;
    PassTo(PLAN, st, map[A := r], st.pods, st.stamped, {}, env);
    AtLeastTwo(LiveNodes(Execute(PLAN, env, map[A := r], st.pods, st.stamped).pods));
  }

  lemma HalfWayHere(st: State, r: Result, pods: map<PodId, Pod>, stamped: set<string>)
    requires Here(st, map[A := r], pods, stamped, {}) && r.phase.Running? && NextNumber(r.attempts) == 2
    requires PodId(B, 0, 1) in pods && pods[PodId(B, 0, 1)] == NEW_POD && PodId(A, 0, 2) !in pods
    ensures HalfWay(st, r)
  {
  }

  /**
    Without its record an execution's node is not counted. At a cap of one over two nodes,
    a pod first seen already ended lets a second node start, and the first node's next
    repeat then starts beside it: two nodes are under load.
  */
  lemma CapNeedsTheRecord() returns (trace: seq<Action>)
    ensures Possible(PLAN, Begun({"a", "b"}), trace)
    ensures forall a :: a in trace && a.Pass? ==> a.env.cap == 1 && a.env.builds == All()
    ensures |LiveNodes(RunProtocol.After(PLAN, Begun({"a", "b"}), trace).pods)| >= 2
  {
    hide Possible, RunProtocol.After, HalfWay, LiveNodes, First;
    var prefix := SeenEndedHalfWay();
    trace := HalfWayTrace(prefix, First(CLEAN, 0), 0);
  }

  lemma SeenEndedHalfWay() returns (prefix: seq<Action>)
    ensures Possible(PLAN, Begun({"a", "b"}), prefix)
    ensures forall a :: a in prefix && a.Pass? ==> a.env.cap == 1 && a.env.builds == All()
    ensures HalfWay(RunProtocol.After(PLAN, Begun({"a", "b"}), prefix), First(CLEAN, 0))
  {
    hide Execute, LiveNodes, First, Enabled, Apply, Possible, RunProtocol.After, Here, HalfWay;
    var env := World(1, 0, {"a", "b"}, All());
    var pass, ends := Again(env), PodMoves(PodId(A, 0, 1), ENDED);
    var st0 := Begun({"a", "b"});
    var started, ended := map[PodId(A, 0, 1) := NEW_POD], map[PodId(A, 0, 1) := ENDED];
    BegunHere();
    StartSweep(env);
    PassTo(PLAN, st0, map[], map[], {}, {}, env);
    var st1 := Apply(PLAN, st0, pass);
    var stamped := Execute(PLAN, env, map[], map[], {}).stamped;
    PodTo(PLAN, st1, map[], started, stamped, {}, PodId(A, 0, 1), ENDED);
    assert started[PodId(A, 0, 1) := ENDED] == ended;
    var st2 := Apply(PLAN, st1, ends);
    SeenEndedSweep(env, stamped);
    PassTo(PLAN, st2, map[], ended, stamped, {}, env);
    FirstIsOpen();
    var s := Execute(PLAN, env, map[], ended, stamped);
    HalfWayHere(Apply(PLAN, st2, pass), First(CLEAN, 0), s.pods, s.stamped);
    TwoSteps(PLAN, st0, pass, ends);
    OneStep(PLAN, st2, pass);
    prefix := [pass, ends] + [pass];
    Joined(PLAN, st0, [pass, ends], [pass]);
  }

  lemma HalfWayTrace(prefix: seq<Action>, r: Result, limit: int) returns (trace: seq<Action>)
    requires Possible(PLAN, Begun({"a", "b"}), prefix) && HalfWay(RunProtocol.After(PLAN, Begun({"a", "b"}), prefix), r)
    ensures trace == prefix + [Again(World(1, limit, {"a", "b"}, All()))]
    ensures Possible(PLAN, Begun({"a", "b"}), trace)
    ensures |LiveNodes(RunProtocol.After(PLAN, Begun({"a", "b"}), trace).pods)| >= 2
  {
    hide Possible, RunProtocol.After, HalfWay, LiveNodes, Enabled, Apply;
    var st := RunProtocol.After(PLAN, Begun({"a", "b"}), prefix);
    var pass := Again(World(1, limit, {"a", "b"}, All()));
    HalfWayOverloads(st, r, limit);
    OneStep(PLAN, st, pass);
    trace := prefix + [pass];
    Joined(PLAN, Begun({"a", "b"}), prefix, [pass]);
  }

  // --- a pod that cannot be built

  /** Everything builds but the first node's first pod. */
  function AllButFirst(): PodId -> bool {
    (id: PodId) => id != PodId(A, 0, 1)
  }

  lemma UnbuiltSweep(env: Env)
    requires env == World(1, 1, {"a", "b"}, AllButFirst())
    ensures var s := Execute(PLAN, env, map[], map[], {});
            && s.results == map[A := First(MACHINERY_ERROR, 1)] && s.pods == map[PodId(B, 0, 1) := NEW_POD]
            && s.ok && s.running
  {
    var s := Seeded(map[], map[], {});
    assert s.busy == {};
    UnbuiltVisit(env, s);
    hide First;
    var t := Advance(PLAN, env, s, A);
    NodeStarts(env, t, B);
    TwoVisits(env, s, t, Advance(PLAN, env, t, B));
  }

  lemma UnbuiltVisit(env: Env, s: Sweep)
    requires env == World(1, 1, {"a", "b"}, AllButFirst()) && s.ok && s.results == map[] && s.busy == {} && s.pods == map[]
    ensures var t := Advance(PLAN, env, s, A);
            t == s.(results := map[A := First(MACHINERY_ERROR, 1)], log := t.log, harvested := true)
  {
    hide Step;
    assert Current(PLAN, s.results, A) == 1;
  }

  /** Nor is the node of a pod that could not be built: its retry starts beside the second node. */
  lemma CapNeedsPodsThatBuild() returns (trace: seq<Action>)
    ensures Possible(PLAN, Begun({"a", "b"}), trace)
    ensures forall a :: a in trace ==> a.Pass? && a.env.cap == 1
    ensures |LiveNodes(RunProtocol.After(PLAN, Begun({"a", "b"}), trace).pods)| >= 2
  {
    hide Possible, RunProtocol.After, HalfWay, LiveNodes, First;
    var prefix := UnbuiltHalfWay();
    trace := HalfWayTrace(prefix, First(MACHINERY_ERROR, 1), 1);
  }

  lemma UnbuiltHalfWay() returns (prefix: seq<Action>)
    ensures Possible(PLAN, Begun({"a", "b"}), prefix)
    ensures forall a :: a in prefix ==> a.Pass? && a.env.cap == 1
    ensures HalfWay(RunProtocol.After(PLAN, Begun({"a", "b"}), prefix), First(MACHINERY_ERROR, 1))
  {
    hide Execute, LiveNodes, First, Enabled, Apply, Possible, RunProtocol.After, Here, HalfWay;
    var env := World(1, 1, {"a", "b"}, AllButFirst());
    var st0 := Begun({"a", "b"});
    BegunHere();
    UnbuiltSweep(env);
    PassTo(PLAN, st0, map[], map[], {}, {}, env);
    FirstIsOpen();
    var s := Execute(PLAN, env, map[], map[], {});
    HalfWayHere(Apply(PLAN, st0, Again(env)), First(MACHINERY_ERROR, 1), s.pods, s.stamped);
    prefix := [Again(env)];
    OneStep(PLAN, st0, Again(env));
  }

  // --- a cap that changes

  lemma WideSweep(env: Env)
    requires env == World(2, 0, {"a", "b"}, All())
    ensures var s := Execute(PLAN, env, map[], map[], {});
            s.results == map[] && s.pods == map[PodId(A, 0, 1) := NEW_POD, PodId(B, 0, 1) := NEW_POD] && s.ok && s.running
  {
    var s := Seeded(map[], map[], {});
    assert s.busy == {};
    hide Advance;
    NodeStarts(env, s, A);
    var t := Advance(PLAN, env, s, A);
    NodeStarts(env, t, B);
    TwoVisits(env, s, t, Advance(PLAN, env, t, B));
  }

  /** A cap lowered below the load does not take the load off: pods already started run on. */
  lemma LoweredCapKeepsItsLoad() returns (trace: seq<Action>, cap: int)
    ensures Possible(PLAN, Begun({"a", "b"}), trace)
    ensures trace != [] && trace[|trace| - 1].Pass? && trace[|trace| - 1].env.cap == cap
    ensures |LiveNodes(RunProtocol.After(PLAN, Begun({"a", "b"}), trace).pods)| > cap
  {
    hide Execute, Enabled, Apply, Possible, RunProtocol.After, LiveNodes;
    var wide, narrow := World(2, 0, {"a", "b"}, All()), World(1, 0, {"a", "b"}, All());
    var st0 := Begun({"a", "b"});
    BegunHere();
    WideSweep(wide);
    PassTo(PLAN, st0, map[], map[], {}, {}, wide);
    var st1 := Apply(PLAN, st0, Again(wide));
    NarrowSweep(narrow, st1.pods, st1.stamped);
    PassTo(PLAN, st1, map[], st1.pods, st1.stamped, {}, narrow);
    trace, cap := [Again(wide), Again(narrow)], 1;
    TwoSteps(PLAN, st0, Again(wide), Again(narrow));
  }

  lemma NarrowSweep(env: Env, pods: map<PodId, Pod>, stamped: set<string>)
    requires env == World(1, 0, {"a", "b"}, All())
    requires pods == map[PodId(A, 0, 1) := NEW_POD, PodId(B, 0, 1) := NEW_POD]
    ensures var s := Execute(PLAN, env, map[], pods, stamped);
            s.ok && s.running && s.results == map[] && s.pods == pods && |LiveNodes(s.pods)| >= 2
  {
    var s := Seeded(map[], pods, stamped);
    var t := Advance(PLAN, env, s, A);
    assert t == s.(busy := s.busy + {"a"}, running := true);
    var s' := Advance(PLAN, env, t, B);
    assert s' == t.(busy := t.busy + {"b"});
    TwoVisits(env, s, t, s');
    assert PodId(A, 0, 1).Node() == "a" && PodId(B, 0, 1).Node() == "b";
    assert pods[PodId(A, 0, 1)].Live() && pods[PodId(B, 0, 1)].Live();
    AtLeastTwo(LiveNodes(pods));
  }

  // ---------------------------------------------------------------- one link

  lemma OneVisit(env: Env, s: Sweep)
    requires s.ok && !Advance(LINK, env, s, AB).Idle()
    ensures SweepTests(LINK, env, s, 0) == Advance(LINK, env, s, AB)
  {
    hide Advance;
    assert Units(LINK, 0) == [AB];
    OneUnitSweep(LINK, env, s, AB);
  }

  lemma LinkStarts(env: Env, c: set<string>)
    requires env == World(2, 0, c, All())
    ensures var s := Execute(LINK, env, map[], map[], {});
            && s.results == map[] && s.pods == map[PodId(AB, 0, 1) := NEW_POD] && s.stamped == {"a", "b"} * c
            && s.ok && s.running
  {
    var s := Seeded(map[], map[], {});
    assert s.busy == {};
    LinkLaunch(env, c, s);
    hide Advance;
    OneVisit(env, s);
  }

  lemma LinkLaunch(env: Env, c: set<string>, s: Sweep)
    requires env == World(2, 0, c, All()) && s.ok && s.results == map[] && s.pods == map[] && s.busy == {} && s.stamped == {}
    ensures var t := Advance(LINK, env, s, AB);
            t == s.(pods := map[PodId(AB, 0, 1) := NEW_POD], stamped := {"a", "b"} * c, busy := {"a", "b"}, running := true)
  {
    var id := PodId(AB, 0, 1);
    assert Current(LINK, s.results, AB) == 1;
    assert AttemptPods(s.pods, AB, 1) == {};
    BothNodes();
    hide AttemptPods, NodeSet, Current;
    assert Advance(LINK, env, s, AB) == StartUnit(LINK, env, s, AB);
    assert s.busy + {"a", "b"} == {"a", "b"};
    assert StartUnit(LINK, env, s, AB) == LaunchUnit(env, s, AB, id);
    WaveStamps(env, {}, AB.nodes);
    hide StampWave, StartUnit, Advance;
    assert {} + ({"a", "b"} * c) == {"a", "b"} * c;
  }

  lemma BothNodes()
    ensures NodeSet(AB) == {"a", "b"} && (set n | n in AB.nodes) == {"a", "b"}
  {
    assert "a" in AB.nodes && "b" in AB.nodes;
  }

  function LinkOpened(): Result {
    Step(LINK.rules, ONCE, New(ONCE), Begin)
  }

  lemma LinkJoins(env: Env, c: set<string>, stamped: set<string>)
    requires env == World(2, 0, c, All())
    ensures var s := Execute(LINK, env, map[], map[PodId(AB, 0, 1) := READY], stamped);
            && s.results == map[AB := LinkOpened()] && s.stamped == stamped && s.ok && s.running
            && s.pods == map[PodId(AB, 0, 1) := READY, PodId(AB, 1, 1) := NEW_POD]
  {
    var root, client := PodId(AB, 0, 1), PodId(AB, 1, 1);
    var s := Seeded(map[], map[root := READY], stamped);
    assert Current(LINK, s.results, AB) == 1;
    assert root in AttemptPods(s.pods, AB, 1) && AnyLive(s.pods, AB, 1);
    assert !Complete(s.pods, AB, 1) by { assert RankId(AB, 1, 1) !in s.pods; }
    hide Step, NodeSet, AnyLive, Complete, AttemptPods;
    var t := Claimed(LINK, s, AB);
    var begun := Played(LINK, env, t, AB, Begin);
    assert begun.results == map[AB := LinkOpened()] && begun.pods == s.pods;
    assert CreateRest(LINK, env, begun, AB, 1, 2) == begun.(running := true);
    var full := begun.(pods := begun.pods[client := NEW_POD]);
    assert CreateRest(LINK, env, full, AB, 1, 2) == full.(running := true);
    assert CreateRest(LINK, env, begun, AB, 1, 1) == full.(running := true);
    assert Advance(LINK, env, s, AB) == full.(running := true);
    OneVisit(env, s);
  }

  /**
    A node that carries another owner's stamp is loaded without this run's: cordoning it
    succeeds and leaves it as it is. If the other owner lets go before the client starts,
    the client's node carries no stamp at all.
  */
  lemma ForeignStampLeavesTheNodeBare() returns (trace: seq<Action>)
    ensures Possible(LINK, Begun({"a", "b"}), trace)
    ensures var st := RunProtocol.After(LINK, Begun({"a", "b"}), trace);
            var client := PodId(AB, 1, 1);
            && client in st.pods && st.pods[client].Live() && client.Node() == "b"
            && "b" in st.existing && "b" !in st.stamped && "b" !in st.foreign
  {
    hide Execute, Enabled, Apply, LinkOpened, Possible, RunProtocol.After;
    var st0 := Begun({"a", "b"});
    var shared, own := World(2, 0, {"a"}, All()), World(2, 0, {"a", "b"}, All());
    var taken, given, up := OthersStamp("b"), OthersRelease("b"), PodMoves(PodId(AB, 0, 1), READY);
    var started, ready := map[PodId(AB, 0, 1) := NEW_POD], map[PodId(AB, 0, 1) := READY];
    BegunHere();
    TakenBy(st0);
    var st1 := Apply(LINK, st0, taken);
    LinkStarts(shared, {"a"});
    PassTo(LINK, st1, map[], map[], {}, {"b"}, shared);
    var st2 := Apply(LINK, st1, Again(shared));
    assert {"a", "b"} * {"a"} == {"a"};
    PodTo(LINK, st2, map[], started, {"a"}, {"b"}, PodId(AB, 0, 1), READY);
    assert started[PodId(AB, 0, 1) := READY] == ready;
    var st3 := Apply(LINK, st2, up);
    LetGo(st3);
    var st4 := Apply(LINK, st3, given);
    LinkJoins(own, {"a", "b"}, {"a"});
    PassTo(LINK, st4, map[], ready, {"a"}, {}, own);
    TwoSteps(LINK, st0, taken, Again(shared));
    TwoSteps(LINK, st2, up, given);
    Joined(LINK, st0, [taken, Again(shared)], [up, given]);
    OneStep(LINK, st4, Again(own));
    trace := ([taken, Again(shared)] + [up, given]) + [Again(own)];
    Joined(LINK, st0, [taken, Again(shared)] + [up, given], [Again(own)]);
  }

  lemma TakenBy(st: State)
    requires Here(st, map[], map[], {}, {})
    ensures Enabled(LINK, st, OthersStamp("b")) && Here(Apply(LINK, st, OthersStamp("b")), map[], map[], {}, {"b"})
  {
  }

  lemma LetGo(st: State)
    requires Here(st, st.results, st.pods, st.stamped, {"b"})
    ensures Enabled(LINK, st, OthersRelease("b")) && Here(Apply(LINK, st, OthersRelease("b")), st.results, st.pods, st.stamped, {})
  {
  }

  lemma OneStep(plan: Plan, st: State, a: Action)
    requires PlanOk(plan) && Enabled(plan, st, a)
    ensures Possible(plan, st, [a]) && RunProtocol.After(plan, st, [a]) == Apply(plan, st, a)
  {
    hide Enabled, Apply;
    RunsPossible(plan, [st, Apply(plan, st, a)], [a]);
  }

  // ---------------------------------------------------------------- a settled link

  function LinkSettled(): Result {
    Step(LINK.rules, ONCE, LinkOpened(), Finish(CLEAN, 0))
  }

  lemma LinkSettles(env: Env, c: set<string>, stamped: set<string>)
    requires env == World(2, 0, c, All())
    ensures LinkSettled().phase.Passed?
    ensures var s := Execute(LINK, env, map[AB := LinkOpened()], map[PodId(AB, 0, 1) := READY, PodId(AB, 1, 1) := ENDED], stamped);
            && s.results == map[AB := LinkSettled()] && s.stamped == stamped && s.ok && s.harvested && !s.running && !s.pending
            && s.pods == map[PodId(AB, 0, 1) := READY, PodId(AB, 1, 1) := ENDED]
  {
    var pods := map[PodId(AB, 0, 1) := READY, PodId(AB, 1, 1) := ENDED];
    var s := Seeded(map[AB := LinkOpened()], pods, stamped);
    OpenedIsOpen();
    LinkHarvest(env, c, s);
    hide Advance, LinkOpened, LinkSettled;
    assert s.results[AB := LinkSettled()] == map[AB := LinkSettled()];
    OneVisit(env, s);
  }

  lemma LinkHarvest(env: Env, c: set<string>, s: Sweep)
    requires env == World(2, 0, c, All()) && s.ok && AB in s.results && s.results[AB] == LinkOpened()
    requires LinkOpened().phase.Running? && NextNumber(LinkOpened().attempts) == 1
    requires s.pods == map[PodId(AB, 0, 1) := READY, PodId(AB, 1, 1) := ENDED]
    ensures var t := Advance(LINK, env, s, AB);
            t == s.(busy := t.busy, results := s.results[AB := LinkSettled()], log := t.log, harvested := true, kill := t.kill)
  {
    hide HarvestPair, StartUnit, GateUnit, HarvestGroup, NodeSet, AnyLive, AttemptPods, New, Step;
    assert Current(LINK, s.results, AB) == 1;
    assert Complete(s.pods, AB, 1);
    var t := Claimed(LINK, s, AB);
    assert t == s.(busy := t.busy);
    assert Advance(LINK, env, s, AB) == HarvestPair(LINK, env, t, AB);
    hide Advance, Current, Claimed, Complete;
    HarvestOfClient(env, c, t);
  }

  lemma HarvestOfClient(env: Env, c: set<string>, t: Sweep)
    requires env == World(2, 0, c, All()) && AB in t.results && t.results[AB] == LinkOpened() && Current(LINK, t.results, AB) == 1
    requires t.pods == map[PodId(AB, 0, 1) := READY, PodId(AB, 1, 1) := ENDED]
    ensures var s := HarvestPair(LINK, env, t, AB);
            s == t.(results := t.results[AB := LinkSettled()], log := s.log, harvested := true, kill := s.kill)
  {
    ClientReports();
    hide Step, CombinePair, Current;
  }

  lemma ClientReports()
    ensures CombinePair(ONCE, None, Some(CLEAN), false) == CLEAN
  {
    var none: Metrics := map[];
    assert none + CLEAN.metrics == CLEAN.metrics;
  }

  lemma OpenedIsOpen()
    ensures LinkOpened().phase.Running? && NextNumber(LinkOpened().attempts) == 1
    ensures LinkSettled().phase.Passed?
  {
    NewOk(ONCE);
    CleanPasses();
    StepEarned(LINK.rules, ONCE, New(ONCE), Begin);
    OpenedKeeps(New(ONCE));
    hide Completed, HistoryOk, AttemptOutcome, Earned;
    RepeatCounts(LINK.rules, ONCE, LinkOpened(), CLEAN, 0);
  }

  /** A run of the link test up to where its result is settled and its server still runs. */
  lemma ServerLingers() returns (trace: seq<Action>)
    ensures Possible(LINK, Begun({"a", "b"}), trace)
    ensures Here(RunProtocol.After(LINK, Begun({"a", "b"}), trace), map[AB := LinkSettled()],
                 map[PodId(AB, 0, 1) := READY, PodId(AB, 1, 1) := ENDED], {"a", "b"}, {})
  {
    hide Execute, Enabled, Apply, LinkOpened, LinkSettled, Possible, RunProtocol.After;
    var env := World(2, 0, {"a", "b"}, All());
    var st0 := Begun({"a", "b"});
    var up, done := PodMoves(PodId(AB, 0, 1), READY), PodMoves(PodId(AB, 1, 1), ENDED);
    var started, ready := map[PodId(AB, 0, 1) := NEW_POD], map[PodId(AB, 0, 1) := READY];
    var joined, ended := ready[PodId(AB, 1, 1) := NEW_POD], ready[PodId(AB, 1, 1) := ENDED];
    BegunHere();
    LinkStarts(env, {"a", "b"});
    PassTo(LINK, st0, map[], map[], {}, {}, env);
    var st1 := Apply(LINK, st0, Again(env));
    PodTo(LINK, st1, map[], started, {"a", "b"}, {}, PodId(AB, 0, 1), READY);
    assert started[PodId(AB, 0, 1) := READY] == ready;
    var st2 := Apply(LINK, st1, up);
    LinkJoins(env, {"a", "b"}, {"a", "b"});
    PassTo(LINK, st2, map[], ready, {"a", "b"}, {}, env);
    var st3 := Apply(LINK, st2, Again(env));
    PodTo(LINK, st3, map[AB := LinkOpened()], joined, {"a", "b"}, {}, PodId(AB, 1, 1), ENDED);
    assert joined[PodId(AB, 1, 1) := ENDED] == ended;
    var st4 := Apply(LINK, st3, done);
    LinkSettles(env, {"a", "b"}, {"a", "b"});
    PassTo(LINK, st4, map[AB := LinkOpened()], ended, {"a", "b"}, {}, env);
    var st5 := Apply(LINK, st4, Again(env));
    TwoSteps(LINK, st0, Again(env), up);
    TwoSteps(LINK, st2, Again(env), done);
    Joined(LINK, st0, [Again(env), up], [Again(env), done]);
    OneStep(LINK, st4, Again(env));
    trace := ([Again(env), up] + [Again(env), done]) + [Again(env)];
    Joined(LINK, st0, [Again(env), up] + [Again(env), done], [Again(env)]);
  }

  /**
    A settled pair no longer holds its nodes. From this reachable state, where the kill of a
    lingering server has not happened yet, only the server's node is committed, and the next
    sweep may give back the client's while the server runs on.
  */
  lemma SettledPairLetsGo() returns (trace: seq<Action>)
    ensures Possible(LINK, Begun({"a", "b"}), trace)
    ensures var st := RunProtocol.After(LINK, Begun({"a", "b"}), trace);
            && Stepping(st) && Over(st.results, AB)
            && PodId(AB, 0, 1) in st.pods && st.pods[PodId(AB, 0, 1)].Live()
            && Committed(st.results, st.pods) == {"a"} && !Withheld(LINK, st, NodeSet(AB))
            && forall env :: "b" in Free(Sweeping(LINK, st, env))
  {
    hide Execute, LinkSettled, Possible, RunProtocol.After;
    trace := ServerLingers();
    var st := RunProtocol.After(LINK, Begun({"a", "b"}), trace);
    OpenedIsOpen();
    forall e ensures "b" in Free(Sweeping(LINK, st, e)) { SettledSweep(e, LinkSettled()); }
    SettledCommits(st.results, st.pods, LinkSettled());
    assert "b" in NodeSet(AB) * st.stamped;
    WithheldExactly(LINK, {"a", "b"}, trace, NodeSet(AB));
  }

  lemma SettledCommits(results: map<Unit, Result>, pods: map<PodId, Pod>, r: Result)
    requires r.phase.Passed? && results == map[AB := r] && pods == map[PodId(AB, 0, 1) := READY, PodId(AB, 1, 1) := ENDED]
    ensures Committed(results, pods) == {"a"} && NodeSet(AB) == {"a", "b"}
  {
    assert PodId(AB, 0, 1).Node() == "a";
    assert LiveNodes(pods) == {"a"} && Holding(results) == {} && Reserved(results, pods) == {};
    BothNodes();
  }

  lemma SettledSweep(env: Env, r: Result)
    requires r.phase.Passed?
    ensures var s := Execute(LINK, env, map[AB := r], map[PodId(AB, 0, 1) := READY, PodId(AB, 1, 1) := ENDED], {"a", "b"});
            s.ok && "b" in Free(s)
  {
    var results := map[AB := r];
    var pods := map[PodId(AB, 0, 1) := READY, PodId(AB, 1, 1) := ENDED];
    var s := Seeded(results, pods, {"a", "b"});
    assert PodId(AB, 0, 1).Node() == "a";
    assert LiveNodes(pods) == {"a"} && Holding(results) == {};
    assert Units(LINK, 0) == [AB] && Over(results, AB);
    DoneIsQuiet(LINK, env, s, [AB]);
    assert SweepTests(LINK, env, s, 1) == s;
    assert SweepTests(LINK, env, s, 0) == s;
  }

  // ---------------------------------------------------------------- a lowered cap, against what was counted

  /**
    Against the nodes first counted, one sweep can go past the larger of the cap and where
    it began: the cap was lowered while only the server of a pair had a pod, and the sweep
    still counts the client's node.
  */
  lemma LoweredCapOverhangs(env: Env, stamped: set<string>)
    requires env.cap == 1
    ensures var pods := map[PodId(AB, 0, 1) := NEW_POD];
            && Counted(map[], pods) == {"a"}
            && |Execute(LINK, env, map[], pods, stamped).busy| > Base.Max(env.cap, |Counted(map[], pods)|)
  {
    LinkOverhangs(1);
    hide Execute, LiveNodes, Holding, Overhang, Counted;
    OneSweepUnderTheCap(LINK, env, map[], map[PodId(AB, 0, 1) := NEW_POD], stamped);
  }

  lemma LinkOverhangs(cap: int)
    requires cap == 1
    ensures var pods := map[PodId(AB, 0, 1) := NEW_POD];
            Counted(map[], pods) == {"a"} && Overhang(LINK, map[], pods, cap)
  {
    hide LiveNodes, Holding, AnyLive, NodeSet, ActiveFrom, Current;
    ServerCounts();
    BothNodes();
    LinkIsActive();
    assert {"a"} + {"a", "b"} == {"a", "b"};
  }

  lemma ServerCounts()
    ensures var pods := map[PodId(AB, 0, 1) := NEW_POD];
            LiveNodes(pods) == {"a"} && Holding(map[]) == {} && AnyLive(pods, AB, 1)
  {
    var id := PodId(AB, 0, 1);
    var pods := map[id := NEW_POD];
    assert id.Node() == "a";
    assert id in AttemptPods(pods, AB, 1);
  }

  lemma LinkIsActive()
    ensures ActiveFrom(LINK, map[], 0) == Some(0) && Current(LINK, map[], AB) == 1
  {
    assert Units(LINK, 0)[0] == AB && !Over(map[], AB);
  }
}
