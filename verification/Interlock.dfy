/** The node cap over one sweep. */
module Interlock {
  import opened Base
  import opened Attempts
  import opened Execution
  import opened ExecutionFacts
  import opened SweepFacts

  /** Nodes of unsettled units that have a live pod somewhere. */
  function Reserved(results: map<Unit, Result>, pods: map<PodId, Pod>): set<string> {
    set id, n | id in pods && pods[id].Live() && !Over(results, id.unit) && n in id.unit.nodes :: n
  }

  /** The nodes a run occupies as a sweep begins, as the sweep first counts them. */
  function Counted(results: map<Unit, Result>, pods: map<PodId, Pod>): set<string> {
    LiveNodes(pods) + Holding(results)
  }

  /** The same, with the nodes a pair or group in flight is about to load. */
  function Committed(results: map<Unit, Result>, pods: map<PodId, Pod>): set<string> {
    Counted(results, pods) + Reserved(results, pods)
  }

  lemma LiveIsReserved(plan: Plan, results: map<Unit, Result>, pods: map<PodId, Pod>, u: Unit, attempt: int)
    requires AnyLive(pods, u, attempt) && !Over(results, u)
    ensures NodeSet(u) <= Reserved(results, pods)
  {
    var id :| id in AttemptPods(pods, u, attempt) && pods[id].Live();
    forall n | n in NodeSet(u) ensures n in Reserved(results, pods) { assert n in id.unit.nodes; }
  }

  lemma SingleIsCounted(pods: map<PodId, Pod>, u: Unit, attempt: int)
    requires AnyLive(pods, u, attempt) && |u.nodes| == 1
    ensures NodeSet(u) <= LiveNodes(pods)
  {
    NodeAnyLive(pods, u, attempt);
    var id := PodId(u, 0, attempt);
    assert id.Node() in LiveNodes(pods);
  }

  lemma {:induction false} SinglesStayUnder(plan: Plan, env: Env, i: nat, t: Sweep, units: seq<Unit>, bound: int)
    requires ResultsOk(plan, t.results) && OfTest(plan, i, units)
    requires forall k :: 0 <= k < |units| ==> |units[k].nodes| == 1
    requires LiveNodes(t.pods) <= t.busy && |t.busy| <= bound && env.cap <= bound
    ensures |SweepUnits(plan, env, t, units).busy| <= bound
    decreases |units|
  {
    hide Swept, Advance, Visited, UnitOk, ResultsOk, LiveNodes, AllOver;
    if units != [] && t.ok {
      var u := units[0];
      assert UnitOk(plan, u) && u.test == i && |u.nodes| == 1;
      SingleStep(plan, env, i, t, u, bound);
      SinglesStayUnder(plan, env, i, Advance(plan, env, t, u), units[1..], bound);
    }
  }

  lemma SingleStep(plan: Plan, env: Env, i: nat, t: Sweep, u: Unit, bound: int)
    requires ResultsOk(plan, t.results) && UnitOk(plan, u) && u.test == i && |u.nodes| == 1 && t.ok
    requires LiveNodes(t.pods) <= t.busy && |t.busy| <= bound && env.cap <= bound
    ensures var t' := Advance(plan, env, t, u);
            ResultsOk(plan, t'.results) && LiveNodes(t'.pods) <= t'.busy && |t'.busy| <= bound
  {
    SweptNothing(plan, env, i, t);
    SweptStep(plan, env, i, t, t, u);
    hide Advance, UnitOk, Current, SweptPods, SweptKills, Moved, PodsGrow, KillsGrow, AnyLive, LiveNodes, NodeSet, ResultsOk;
    if !Over(t.results, u) && AnyLive(t.pods, u, Current(plan, t.results, u)) {
      SingleIsCounted(t.pods, u, Current(plan, t.results, u));
      assert Advance(plan, env, t, u).busy == t.busy;
    }
  }

  /** The one unit of a pair or group test. */
  ghost predicate Gang(plan: Plan, k: nat) {
    k < |plan.tests| && (plan.tests[k].scope.PairScope? || plan.tests[k].scope.GroupScope?)
  }

  lemma GangSweep(plan: Plan, env: Env, s: Sweep, k: nat)
    requires PlanOk(plan) && Gang(plan, k) && ResultsOk(plan, s.results) && s.ok && !AllOver(s.results, Units(plan, k))
    ensures var u := Unit(k, plan.targets);
            && UnitOk(plan, u) && !Over(s.results, u) && Units(plan, k) == [u]
            && Visited(plan, env, s, u, SweepUnits(plan, env, s, Units(plan, k)))
  {
    UnitsOk(plan, k);
    var u := Unit(k, plan.targets);
    assert UnitOk(plan, Units(plan, k)[0]);
    SweptNothing(plan, env, k, s);
    SweptStep(plan, env, k, s, s, u);
    assert [u][1..] == [];
    hide Advance, Visited;
    assert SweepUnits(plan, env, s, [u]) == SweepUnits(plan, env, Advance(plan, env, s, u), []);
  }

  /** A pair or group in flight whose further nodes are not yet counted and do not fit. */
  ghost predicate Overhang(plan: Plan, results: map<Unit, Result>, pods: map<PodId, Pod>, cap: int) {
    match ActiveFrom(plan, results, 0)
    case None => false
    case Some(k) =>
      var u := Unit(k, plan.targets);
      && Gang(plan, k)
      && AnyLive(pods, u, Current(plan, results, u))
      && !(NodeSet(u) <= Counted(results, pods))
      && |Counted(results, pods) + NodeSet(u)| > cap
  }

  lemma GangBound(plan: Plan, env: Env, results: map<Unit, Result>, pods: map<PodId, Pod>, s0: Sweep, k: nat)
    requires PlanOk(plan) && ResultsOk(plan, results) && Padded(plan, results, s0.results) && ResultsOk(plan, s0.results)
    requires s0.busy == Counted(results, pods) && s0.pods == pods && s0.ok
    requires ActiveFrom(plan, results, 0) == Some(k) && Gang(plan, k) && !AllOver(results, Units(plan, k))
    ensures var busy := SweepUnits(plan, env, s0, Units(plan, k)).busy;
            && |busy| <= Max(env.cap, |Committed(results, pods)|)
            && (|busy| <= Max(env.cap, |Counted(results, pods)|) <==> !Overhang(plan, results, pods, env.cap))
  {
    hide SweepUnits, Padded, Moved, PodsGrow, KillsGrow, ResultsOk, Current, NodeSet, Counted, Reserved, ActiveFrom, AllOver, UnitOk, Over, AnyLive, Units;
    UnitsOk(plan, k);
    var u := Unit(k, plan.targets);
    OverPadded(plan, results, s0.results, Units(plan, k));
    GangSweep(plan, env, s0, k);
    PaddedUnit(plan, results, s0.results, u);
    var s' := SweepUnits(plan, env, s0, Units(plan, k));
    var live := AnyLive(pods, u, Current(plan, results, u));
    if live { LiveIsReserved(plan, results, pods, u, Current(plan, results, u)); }
    BoundCalc(Counted(results, pods), NodeSet(u), Reserved(results, pods), s'.busy, env.cap, live);
  }

  lemma BoundCalc<T>(base: set<T>, nodes: set<T>, more: set<T>, busy: set<T>, cap: int, live: bool)
    requires base <= busy <= base + nodes
    requires live ==> nodes <= busy && nodes <= more
    requires !live ==> busy == base || |busy| <= cap
    ensures |busy| <= Max(cap, |base + more|)
    ensures |busy| <= Max(cap, |base|) <==> !(live && !(nodes <= base) && |base + nodes| > cap)
  {
    SubsetSize(base, base + more);
    if live {
      assert busy == base + nodes;
      SubsetSize(base + nodes, base + more);
      if nodes <= base { assert busy == base; } else { StrictlyMore(base, nodes); }
    }
  }

  lemma StrictlyMore<T>(a: set<T>, b: set<T>)
    requires !(b <= a)
    ensures |a + b| > |a|
  {
    var x :| x in b && x !in a;
    SubsetSize(a + {x}, a + b);
  }

  /**
    One sweep never occupies more nodes than the larger of the cap and what the run had
    committed when it began. Against the nodes the sweep first counts, the same holds
    exactly when no pair or group in flight overhangs the cap.
  */
  lemma OneSweepUnderTheCap(plan: Plan, env: Env, results: map<Unit, Result>, pods: map<PodId, Pod>, stamped: set<string>)
    requires PlanOk(plan) && ResultsOk(plan, results)
    ensures var busy := Execute(plan, env, results, pods, stamped).busy;
            && |busy| <= Max(env.cap, |Committed(results, pods)|)
            && (|busy| <= Max(env.cap, |Counted(results, pods)|) <==> !Overhang(plan, results, pods, env.cap))
  {
    var s := Seeded(results, pods, stamped);
    assert Padded(plan, results, results);
    var s0 := SweepShape(plan, env, results, s, 0);
    SubsetSize(Counted(results, pods), Committed(results, pods));
    match ActiveFrom(plan, results, 0)
    case None =>
    case Some(k) =>
      ActiveNotOver(plan, results, 0, k);
      if Gang(plan, k) {
        GangBound(plan, env, results, pods, s0, k);
      } else {
        hide SweepUnits, ResultsOk, Padded, LiveNodes, Holding, Committed, ActiveFrom;
        SinglesStayUnder(plan, env, k, s0, Units(plan, k), Max(env.cap, |s0.busy|));
      }
  }

  // ---------------------------------------------------------------- a sweep with the launch window closed

  /** It creates nothing, meets no error, and counts nothing that was not committed. */
  lemma ClosedSweep(plan: Plan, env: Env, results: map<Unit, Result>, pods: map<PodId, Pod>, stamped: set<string>)
    requires PlanOk(plan) && ResultsOk(plan, results) && !env.launch
    ensures var s := Execute(plan, env, results, pods, stamped);
            s.ok && s.pods == pods && s.busy <= Committed(results, pods)
  {
    var s := Seeded(results, pods, stamped);
    assert Padded(plan, results, results);
    var s0 := SweepShape(plan, env, results, s, 0);
    hide SweepUnits, ResultsOk, LiveNodes, Holding, ActiveFrom, Padded, Reserved;
    match ActiveFrom(plan, results, 0)
    case None =>
    case Some(k) =>
      SweptNothing(plan, env, k, s0);
      assert forall v :: Over(results, v) ==> Over(s0.results, v) by { OverStays(plan, results, s0.results); }
      hide OfTest, Committed;
      ClosedUnits(plan, env, k, results, s0, s0, Units(plan, k));
  }

  lemma OverStays(plan: Plan, a: map<Unit, Result>, b: map<Unit, Result>)
    requires Padded(plan, a, b)
    ensures forall v :: Over(a, v) ==> Over(b, v)
  {
  }

  lemma {:induction false} ClosedUnits(plan: Plan, env: Env, i: nat, results: map<Unit, Result>, s: Sweep, t: Sweep, units: seq<Unit>)
    requires Swept(plan, env, i, s, t) && OfTest(plan, i, units) && !env.launch
    requires t.ok && t.pods == s.pods && t.busy <= Committed(results, s.pods)
    requires forall v :: Over(results, v) ==> Over(t.results, v)
    ensures var end := SweepUnits(plan, env, t, units);
            end.ok && end.pods == s.pods && end.busy <= Committed(results, s.pods)
    decreases |units|
  {
    hide Swept, Advance, UnitOk, Visited, Over, Committed;
    if units != [] {
      var u := units[0];
      assert UnitOk(plan, u) && u.test == i;
      SweptStep(plan, env, i, s, t, u);
      ClosedStep(plan, env, i, results, s, t, u);
      ClosedUnits(plan, env, i, results, s, Advance(plan, env, t, u), units[1..]);
    }
  }

  lemma ClosedStep(plan: Plan, env: Env, i: nat, results: map<Unit, Result>, s: Sweep, t: Sweep, u: Unit)
    requires Swept(plan, env, i, s, t) && UnitOk(plan, u) && u.test == i && !env.launch
    requires t.ok && t.pods == s.pods && t.busy <= Committed(results, s.pods)
    requires forall v :: Over(results, v) ==> Over(t.results, v)
    requires Over(t.results, u) ==> Advance(plan, env, t, u) == t
    requires !Over(t.results, u) ==> Visited(plan, env, t, u, Advance(plan, env, t, u))
    ensures var t' := Advance(plan, env, t, u);
            && t'.ok && t'.pods == s.pods && t'.busy <= Committed(results, s.pods)
            && forall v :: Over(results, v) ==> Over(t'.results, v)
  {
    hide Advance, Swept, Current, Visited, Over;
    if !Over(t.results, u) {
      ClosedVisit(plan, env, results, t, u, Advance(plan, env, t, u));
      ClosedSettled(plan, env, results, t, u, Advance(plan, env, t, u));
    }
  }

  lemma ClosedVisit(plan: Plan, env: Env, results: map<Unit, Result>, t: Sweep, u: Unit, t': Sweep)
    requires u.test < |plan.tests| && Visited(plan, env, t, u, t') && !Over(results, u)
    requires t.ok && !env.launch && t.busy <= Committed(results, t.pods)
    ensures t'.ok && t'.pods == t.pods && t'.busy <= Committed(results, t.pods)
  {
    hide Moved, KillsGrow, Current, NodeSet, Counted, Reserved, AnyLive, Over;
    if AnyLive(t.pods, u, Current(plan, t.results, u)) {
      LiveIsReserved(plan, results, t.pods, u, Current(plan, t.results, u));
    }
    assert forall id :: id in t'.pods && id !in t.pods ==> MayCreate(plan, env, t, u, t', id);
    assert t'.pods == t.pods;
  }

  lemma ClosedSettled(plan: Plan, env: Env, results: map<Unit, Result>, t: Sweep, u: Unit, t': Sweep)
    requires u.test < |plan.tests| && Visited(plan, env, t, u, t') && !Over(t.results, u)
    requires forall v :: Over(results, v) ==> Over(t.results, v)
    ensures forall v :: Over(results, v) ==> Over(t'.results, v)
  {
    hide PodsGrow, BusyGrows, KillsGrow, Current, ResultOk;
  }

  lemma {:induction false} ActiveNotOver(plan: Plan, results: map<Unit, Result>, i: nat, k: nat)
    requires ActiveFrom(plan, results, i) == Some(k)
    ensures i <= k < |plan.tests| && !plan.tests[k].scope.OtherScope? && !AllOver(results, Units(plan, k)) && !Halted(plan, results)
    ensures forall j :: i <= j < k ==> plan.tests[j].scope.OtherScope? || AllOver(results, Units(plan, j))
    decreases |plan.tests| - i
  {
    if plan.tests[i].scope.OtherScope? || AllOver(results, Units(plan, i)) { ActiveNotOver(plan, results, i + 1, k); }
  }
}
