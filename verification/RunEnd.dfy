/** Ends and order: settled results, terminal phases, cancellation, and who may join when. */
module RunEnd {
  import opened Base
  import opened Attempts
  import opened AttemptHistory
  import opened AttemptVerdict
  import opened Execution
  import opened ExecutionFacts
  import opened SweepFacts
  import opened Interlock
  import opened SweepOutcome
  import opened RunProtocol
  import opened RunInvariant
  import opened RunLaws

  // ---------------------------------------------------------------- settled is settled

  /** Every settled result is still there, unchanged. */
  ghost predicate Preserved(a: map<Unit, Result>, b: map<Unit, Result>) {
    forall u :: Over(a, u) ==> u in b && b[u] == a[u]
  }

  lemma ProgressPreserves(plan: Plan, a: map<Unit, Result>, b: map<Unit, Result>)
    requires Progress(plan, a, b)
    ensures Preserved(a, b)
  {
    hide ResultsOk, UnitOk, Current, Ordered;
  }

  lemma EndPreserves(plan: Plan, a: map<Unit, Result>, phase: Phase)
    ensures Preserved(a, CutAll(SettleRemaining(plan, a, phase)))
    ensures Preserved(a, CutAll(a))
  {
    hide Owed;
    var b := SettleRemaining(plan, a, phase);
    forall u | Over(a, u) ensures u in CutAll(b) && CutAll(b)[u] == a[u] {
      assert u in b && b[u] == a[u];
    }
  }

  lemma PreservedTwice(a: map<Unit, Result>, b: map<Unit, Result>, c: map<Unit, Result>)
    requires Preserved(a, b) && Preserved(b, c)
    ensures Preserved(a, c)
  {
    forall u | Over(a, u) ensures u in c && c[u] == a[u] { assert Over(b, u); }
  }

  /** What no step undoes: a terminal phase, a settled result, the cancelling mark. */
  ghost predicate Final(st: State, st': State) {
    && Preserved(st.results, st'.results)
    && (st.phase.Terminal() ==> st'.phase == st.phase && st'.results == st.results)
    && (st.cancelling ==> st'.cancelling)
  }

  /** From the cancelling mark on: nothing new is started, and only Cancelled can end the run. */
  ghost predicate Draining(st: State, st': State) {
    && st'.pods.Keys <= st.pods.Keys
    && (st'.phase == st.phase || st'.phase.Cancelled?)
  }

  lemma SweepPreserves(plan: Plan, st: State, env: Env)
    requires PlanOk(plan) && Inv(plan, st) && Stepping(st)
    ensures var s := Sweeping(plan, st, env);
            Preserved(st.results, s.results) && (!env.launch ==> s.pods.Keys <= st.pods.Keys)
  {
    SweptFromState(plan, st, env);
    var s := Sweeping(plan, st, env);
    hide Sweeping, Execute, Sound, Guarded, KillsRecorded, ActiveFrom, Padded, UnknownsSettled, Halted, Condemns, GangKept;
    ProgressPreserves(plan, st.results, s.results);
    hide Progress, Preserved;
    if !env.launch {
      forall id | id in s.pods ensures id in st.pods {
        assert id !in st.pods ==> NewPod(plan, env, id.unit.test, Seeded(st.results, st.pods, st.stamped), s, id);
      }
    }
  }

  lemma SelfPreserved(a: map<Unit, Result>)
    ensures Preserved(a, a)
  {
  }

  lemma StepFinal(plan: Plan, st: State, a: Action)
    requires PlanOk(plan) && Inv(plan, st) && Enabled(plan, st, a)
    ensures Final(st, Apply(plan, st, a))
    ensures st.cancelling ==> Draining(st, Apply(plan, st, a))
  {
    hide Preserved, Inv, FinalPhase, LoadOffFirst, Free, SettleRemaining, CutAll, LivePods, Conceded, Extended;
    SelfPreserved(st.results);
    match a
    case Pass(env, commit, kills, released) =>
      SweepPreserves(plan, st, env);
      var s := Sweeping(plan, st, env);
      EndPreserves(plan, s.results, Error);
      hide Sweeping;
      PreservedTwice(st.results, s.results, CutAll(s.results));
    case Drain(env, immediate, dirty, commit, kills, released) =>
      SweepPreserves(plan, st, env);
      var s := Sweeping(plan, st, env);
      EndPreserves(plan, s.results, Cancelled);
      hide Sweeping;
      PreservedTwice(st.results, s.results, CutAll(SettleRemaining(plan, s.results, Cancelled)));
    case Expire(kills, released) =>
      EndPreserves(plan, st.results, Error);
    case _ =>
  }

  /** A settled result keeps its verdict, a finished run its phase, and the cancelling mark stays, over every continuation. */
  lemma {:induction false} SettledIsFinal(plan: Plan, st: State, trace: seq<Action>)
    requires PlanOk(plan) && Inv(plan, st) && Possible(plan, st, trace)
    ensures Final(st, RunProtocol.After(plan, st, trace))
    decreases |trace|
  {
    SelfPreserved(st.results);
    if trace != [] {
      hide Inv, Enabled, Apply, Preserved;
      var next := Apply(plan, st, trace[0]);
      RunInvariant.StepKeeps(plan, st, trace[0]);
      StepFinal(plan, st, trace[0]);
      SettledIsFinal(plan, next, trace[1..]);
      PreservedTwice(st.results, next.results, RunProtocol.After(plan, next, trace[1..]).results);
    }
  }

  /**
    Cancel is one-way. Once the cancelling mark is durable no later pass creates a pod at
    any scope, no settled result changes, and the run stays as it is or ends Cancelled.
  */
  lemma {:induction false} CancelIsOneWay(plan: Plan, st: State, trace: seq<Action>)
    requires PlanOk(plan) && Inv(plan, st) && st.cancelling && Possible(plan, st, trace)
    ensures var end := RunProtocol.After(plan, st, trace);
            end.cancelling && Draining(st, end) && Preserved(st.results, end.results)
    decreases |trace|
  {
    SettledIsFinal(plan, st, trace);
    if trace != [] {
      hide Inv, Enabled, Apply, Preserved;
      RunInvariant.StepKeeps(plan, st, trace[0]);
      StepFinal(plan, st, trace[0]);
      CancelIsOneWay(plan, Apply(plan, st, trace[0]), trace[1..]);
    }
  }

  // ---------------------------------------------------------------- joining and releasing

  /** What a new pod finds on the nodes of its unit. */
  ghost predicate JoinsInOrder(st: State, s: Sweep, id: PodId) {
    var root := PodId(id.unit, 0, id.attempt);
    if id.rank == 0 then
      forall n :: n in NodeSet(id.unit) && n in st.existing ==> (n in s.stamped <==> n !in st.foreign)
    else
      && root in st.pods && st.pods[root].phase == PodRunning && st.pods[root].readyCondition && root in st.conceded
      && forall n :: n in NodeSet(id.unit) && n in st.existing ==> (n in st.stamped <==> n !in st.conceded[root])
  }

  /**
    A pair's client or a group's worker is created only behind a Ready first rank of the
    same attempt. An existing node of the unit then carries this run's stamp exactly when
    no other owner's stamp was on it as that first rank was created; and as a first rank is
    created the unit's existing nodes carry this run's stamp exactly when not another's.
  */
  lemma JoinersFollowTheRoot(plan: Plan, existing: set<string>, trace: seq<Action>, env: Env)
    requires PlanOk(plan) && Possible(plan, Begun(existing), trace)
    ensures var st := RunProtocol.After(plan, Begun(existing), trace);
            Stepping(st) && env.claimable == st.existing - st.foreign ==>
              var s := Sweeping(plan, st, env);
              forall id :: id in s.pods && id !in st.pods ==> JoinsInOrder(st, s, id)
  {
    ReachableInv(plan, existing, trace);
    var st := RunProtocol.After(plan, Begun(existing), trace);
    hide RunProtocol.After, Possible;
    if Stepping(st) && env.claimable == st.existing - st.foreign {
      forall id | id in Sweeping(plan, st, env).pods && id !in st.pods ensures JoinsInOrder(st, Sweeping(plan, st, env), id) {
        JoinerFrom(plan, st, env, id);
      }
    }
    hide Inv, Sweeping, JoinsInOrder;
  }

  lemma JoinerFrom(plan: Plan, st: State, env: Env, id: PodId)
    requires PlanOk(plan) && Inv(plan, st) && Stepping(st) && env.claimable == st.existing - st.foreign
    requires id in Sweeping(plan, st, env).pods && id !in st.pods
    ensures JoinsInOrder(st, Sweeping(plan, st, env), id)
  {
    SweptFromState(plan, st, env);
    var s := Sweeping(plan, st, env);
    hide Sweeping, Execute, KillsRecorded, ActiveFrom, Padded, UnknownsSettled, Halted, Condemns, Progress, NodeSet, LiveNodes, Holding, Sound, JoinsInOrder;
    assert NewPod(plan, env, id.unit.test, Seeded(st.results, st.pods, st.stamped), s, id);
    if id.rank > 0 {
      JoinerGang(plan, id);
      assert id.attempt == Current(plan, st.results, id.unit);
      hide Spawned, GangKept;
      LaterRank(plan, st, env, s, id);
    } else {
      hide Spawned, GangKept;
      FirstRank(plan, st, env, s, id);
    }
  }

  lemma FirstRank(plan: Plan, st: State, env: Env, s: Sweep, id: PodId)
    requires NewPod(plan, env, id.unit.test, Seeded(st.results, st.pods, st.stamped), s, id) && id.rank == 0
    requires s.stamped <= st.stamped + env.claimable && st.stamped !! st.foreign && env.claimable == st.existing - st.foreign
    ensures JoinsInOrder(st, s, id)
  {
    hide Current, UnitOk, NodeSet, LiveNodes, Holding;
    assert forall n :: n in NodeSet(id.unit) && n in st.existing && n !in st.foreign ==> n in NodeSet(id.unit) * env.claimable;
  }

  lemma LaterRank(plan: Plan, st: State, env: Env, s: Sweep, id: PodId)
    requires NewPod(plan, env, id.unit.test, Seeded(st.results, st.pods, st.stamped), s, id) && id.rank > 0
    requires Gang(plan, id.unit.test) && id.attempt == Current(plan, st.results, id.unit)
    requires Shielded(st.results, st.pods, st.stamped, st.existing, st.conceded)
    requires Apart(plan, st.results, st.pods, st.stamped, st.conceded)
    ensures JoinsInOrder(st, s, id)
  {
    hide Current, UnitOk, NodeSet, LiveNodes, Holding, Over;
    var root := PodId(id.unit, 0, id.attempt);
    assert root in st.conceded && st.conceded[root] !! st.stamped;
    assert NodeSet(id.unit) * st.existing <= st.stamped + Waived(st.conceded, root);
    assert forall n :: n in NodeSet(id.unit) && n in st.existing ==> n in NodeSet(id.unit) * st.existing;
  }

  lemma JoinerGang(plan: Plan, id: PodId)
    requires UnitOk(plan, id.unit) && 0 < id.rank < |id.unit.nodes|
    ensures Gang(plan, id.unit.test)
  {
  }

  // ---------------------------------------------------------------- what a sweep may give back

  /** No sweep gives back a node it stamped, or one that is committed as it ends. */
  lemma FreeIsUncommitted(plan: Plan, st: State, env: Env)
    requires PlanOk(plan) && Inv(plan, st) && Stepping(st)
    ensures var s := Sweeping(plan, st, env);
            && Free(s) <= st.stamped - Committed(st.results, s.pods)
            && Committed(st.results, st.pods) <= Committed(st.results, s.pods)
  {
    assert Sound(plan, st.results, st.pods);
    SweptFromState(plan, st, env);
    var s := Sweeping(plan, st, env);
    CommittedIsBusy(plan, env, st.results, st.pods, st.stamped, s);
    MorePods(st.results, st.pods, s.pods);
    hide Inv, Sweeping, Sound, Progress, Condemns, GangKept, Committed, LiveNodes, Holding;
  }

  lemma MorePods(results: map<Unit, Result>, pods: map<PodId, Pod>, more: map<PodId, Pod>)
    requires forall id :: id in pods ==> id in more && more[id] == pods[id]
    ensures Committed(results, pods) <= Committed(results, more)
  {
    forall n | n in LiveNodes(pods) ensures n in LiveNodes(more) {
      var id :| id in pods && pods[id].Live() && id.Node() == n;
      assert id in more;
    }
    forall n | n in Reserved(results, pods) ensures n in Reserved(results, more) {
      var id :| id in pods && pods[id].Live() && !Over(results, id.unit) && n in id.unit.nodes;
      assert id in more;
    }
  }

  /** With the launch window closed, everything else the run had stamped may go. */
  lemma ClosedFree(plan: Plan, st: State, env: Env)
    requires PlanOk(plan) && Inv(plan, st) && Stepping(st) && !env.launch
    ensures Free(Sweeping(plan, st, env)) == st.stamped - Committed(st.results, st.pods)
  {
    assert Sound(plan, st.results, st.pods);
    ClosedSweep(plan, env, st.results, st.pods, st.stamped);
    FreeIsUncommitted(plan, st, env);
    SweptFromState(plan, st, env);
    hide Inv, Execute, Progress, Spawned, Condemns, GangKept, Committed;
  }

  /** No sweep the cluster allows gives back any of these nodes. */
  ghost predicate Withheld(plan: Plan, st: State, nodes: set<string>)
    requires PlanOk(plan)
  {
    forall env: Env :: env.claimable == st.existing - st.foreign ==> nodes !! Free(Sweeping(plan, st, env))
  }

  function Closed(claimable: set<string>): Env {
    Env(false, 1, 0, 0, claimable, id => true, n => true, id => true, id => false,
        id => Harvest(MACHINERY_ERROR, false), u => MACHINERY_ERROR, id => None)
  }

  /** A pod on this node has not ended, an open result holds it, or it is a node of an unsettled unit one of whose pods has not ended. */
  ghost predicate InUse(results: map<Unit, Result>, pods: map<PodId, Pod>, node: string) {
    || (exists id :: id in pods && pods[id].phase != PodSucceeded && pods[id].phase != PodFailed
                     && node == if id.rank < |id.unit.nodes| then id.unit.nodes[id.rank] else "")
    || (exists u :: u in results && !results[u].phase.Terminal() && node in u.nodes)
    || (exists id :: id in pods && pods[id].phase != PodSucceeded && pods[id].phase != PodFailed
                     && node in id.unit.nodes && !(id.unit in results && results[id.unit].phase.Terminal()))
  }

  lemma CommittedMeans(results: map<Unit, Result>, pods: map<PodId, Pod>)
    ensures forall n :: n in Committed(results, pods) <==> InUse(results, pods, n)
  {
    forall n ensures n in LiveNodes(pods) <==> exists id :: id in pods && pods[id].phase != PodSucceeded && pods[id].phase != PodFailed
                                                  && n == if id.rank < |id.unit.nodes| then id.unit.nodes[id.rank] else "" {
      if n in LiveNodes(pods) { var id :| id in pods && pods[id].Live() && id.Node() == n; }
      if id :| id in pods && pods[id].phase != PodSucceeded && pods[id].phase != PodFailed
               && n == if id.rank < |id.unit.nodes| then id.unit.nodes[id.rank] else "" { assert pods[id].Live() && id.Node() == n; }
    }
  }

  /**
    Exactly which nodes a sweep may give back. In every reachable state of a run under way,
    no sweep gives back any of a set of nodes if and only if every one of them that carries
    the run's stamp is committed: under a live pod, held by an open result, or a node of an
    unsettled unit with a live pod.
  */
  lemma WithheldExactly(plan: Plan, existing: set<string>, trace: seq<Action>, nodes: set<string>)
    requires PlanOk(plan) && Possible(plan, Begun(existing), trace)
    ensures var st := RunProtocol.After(plan, Begun(existing), trace);
            Stepping(st) ==>
              && (Withheld(plan, st, nodes) <==> nodes * st.stamped <= Committed(st.results, st.pods))
              && (Withheld(plan, st, nodes) <==> forall n :: n in nodes && n in st.stamped ==> InUse(st.results, st.pods, n))
  {
    CommittedMeans(RunProtocol.After(plan, Begun(existing), trace).results, RunProtocol.After(plan, Begun(existing), trace).pods);
    hide InUse;
    ReachableInv(plan, existing, trace);
    var st := RunProtocol.After(plan, Begun(existing), trace);
    hide RunProtocol.After, Possible, Inv, Sweeping, Free, Committed;
    if Stepping(st) {
      var env := Closed(st.existing - st.foreign);
      ClosedFree(plan, st, env);
      if nodes * st.stamped <= Committed(st.results, st.pods) {
        forall env: Env ensures nodes !! Free(Sweeping(plan, st, env)) { FreeIsUncommitted(plan, st, env); }
      } else {
        assert !(nodes !! Free(Sweeping(plan, st, env)));
      }
    }
  }

  /**
    So the nodes of an unsettled unit with a live pod stay: no sweep gives one back, nor one
    of a unit whose pod that very sweep created.
  */
  lemma UnitsInFlightKeepTheirNodes(plan: Plan, existing: set<string>, trace: seq<Action>, env: Env)
    requires PlanOk(plan) && Possible(plan, Begun(existing), trace)
    ensures var st := RunProtocol.After(plan, Begun(existing), trace);
            Stepping(st) ==>
              var s := Sweeping(plan, st, env);
              && (forall id :: id in s.pods && s.pods[id].Live() && !Over(st.results, id.unit) ==> NodeSet(id.unit) !! Free(s))
              && (forall id :: id in st.pods && st.pods[id].Live() && !Over(st.results, id.unit) ==> Withheld(plan, st, NodeSet(id.unit)))
  {
    ReachableInv(plan, existing, trace);
    var st := RunProtocol.After(plan, Begun(existing), trace);
    hide RunProtocol.After, Possible, Inv, Sweeping, Free, Counted, Withheld;
    if Stepping(st) {
      FreeIsUncommitted(plan, st, env);
      forall id | id in Sweeping(plan, st, env).pods && Sweeping(plan, st, env).pods[id].Live() && !Over(st.results, id.unit)
        ensures NodeSet(id.unit) <= Reserved(st.results, Sweeping(plan, st, env).pods) {
        PodReserves(st.results, Sweeping(plan, st, env).pods, id);
      }
      forall id | id in st.pods && st.pods[id].Live() && !Over(st.results, id.unit) ensures Withheld(plan, st, NodeSet(id.unit)) {
        PodReserves(st.results, st.pods, id);
        WithheldExactly(plan, existing, trace, NodeSet(id.unit));
      }
    }
  }

  lemma PodReserves(results: map<Unit, Result>, pods: map<PodId, Pod>, id: PodId)
    requires id in pods && pods[id].Live() && !Over(results, id.unit)
    ensures NodeSet(id.unit) <= Reserved(results, pods)
  {
  }

  /** No pod that has not ended is on the node. */
  predicate Unloaded(pods: map<PodId, Pod>, node: string) {
    forall id :: id in pods && id.rank < |id.unit.nodes| && id.unit.nodes[id.rank] == node ==>
      pods[id].phase == PodSucceeded || pods[id].phase == PodFailed
  }

  /**
    Load off first. In every reachable state, whatever step takes the run's stamp off a node
    that is still there, and whichever stamp the very same pass put on, leaves no pod on that
    node that has not ended.
  */
  lemma StampsGoUnloaded(plan: Plan, existing: set<string>, trace: seq<Action>, a: Action, node: string)
    requires PlanOk(plan) && Possible(plan, Begun(existing), trace) && Enabled(plan, RunProtocol.After(plan, Begun(existing), trace), a)
    requires a != NodeGone(node)
    ensures var st := RunProtocol.After(plan, Begun(existing), trace);
            var t := Apply(plan, st, a);
            var held := if a.Pass? || a.Drain? then Sweeping(plan, st, a.env).stamped else st.stamped;
            node in held && node !in t.stamped ==> Unloaded(t.pods, node)
  {
    ReachableInv(plan, existing, trace);
    var st := RunProtocol.After(plan, Begun(existing), trace);
    hide RunProtocol.After, Possible, Inv, Unloaded;
    match a
    case Pass(env, commit, kills, released) => SweepUnloads(plan, st, env, kills, released, node); PassUnloads(plan, st, a, node);
    case Drain(env, _, _, commit, kills, released) => SweepUnloads(plan, st, env, kills, released, node); PassUnloads(plan, st, a, node);
    case Expire(kills, released) => EmptyUnloads(st.pods, kills, node);
    case CleanUp(kills, released) => EmptyUnloads(st.pods, kills, node);
    case _ =>
  }

  lemma EmptyUnloads(pods: map<PodId, Pod>, kills: set<PodId>, node: string)
    ensures kills == LivePods(pods) ==> Unloaded(pods - kills, node)
  {
    if kills == LivePods(pods) {
      forall id | id in pods - kills ensures !pods[id].Live() { assert id !in LivePods(pods); }
    }
  }

  lemma SweepUnloads(plan: Plan, st: State, env: Env, kills: set<PodId>, released: set<string>, node: string)
    requires PlanOk(plan) && Inv(plan, st) && Stepping(st)
    ensures var s := Sweeping(plan, st, env);
            && (node in Free(s) ==> Unloaded(s.pods, node) && Unloaded(s.pods - kills, node))
            && (kills == LivePods(s.pods) ==> Unloaded(s.pods - kills, node))
  {
    assert Sound(plan, st.results, st.pods);
    SweptFromState(plan, st, env);
    var s := Sweeping(plan, st, env);
    hide Inv, Sweeping, Execute, Sound, Progress, Spawned, Condemns, GangKept, Holding, LivePods, LiveNodes, Unloaded;
    assert LiveNodes(s.pods) <= s.busy;
    EmptyUnloads(s.pods, kills, node);
    if node in Free(s) { BareUnloads(s.pods, kills, node); }
  }

  lemma BareUnloads(pods: map<PodId, Pod>, kills: set<PodId>, node: string)
    requires node !in LiveNodes(pods)
    ensures Unloaded(pods, node) && Unloaded(pods - kills, node)
  {
    forall id | id in pods && pods[id].Live() ensures id.Node() != node { assert id.Node() in LiveNodes(pods); }
  }

  lemma PassUnloads(plan: Plan, st: State, a: Action, node: string)
    requires PlanOk(plan) && (a.Pass? || a.Drain?) && Enabled(plan, st, a)
    requires var s := Sweeping(plan, st, a.env);
             && (node in Free(s) ==> Unloaded(s.pods, node) && Unloaded(s.pods - a.kills, node))
             && (a.kills == LivePods(s.pods) ==> Unloaded(s.pods - a.kills, node))
    ensures var t := Apply(plan, st, a);
            node in Sweeping(plan, st, a.env).stamped && node !in t.stamped ==> Unloaded(t.pods, node)
  {
    hide Sweeping, Free, Unloaded, LivePods, Extended, Conceded, CutAll, SettleRemaining, FinalPhase;
    var s := Sweeping(plan, st, a.env);
    assert s.pods - {} == s.pods;
  }

  // ---------------------------------------------------------------- when a run ends, and how it is left

  /** Every verdict the plan owes is given, or a required failure stops the plan. */
  ghost predicate NothingOwed(plan: Plan, results: map<Unit, Result>) {
    || (forall u :: UnitOk(plan, u) ==> u in results && results[u].phase.Terminal())
    || (plan.failFast && exists u :: u in results && u.test < |plan.tests| && plan.tests[u.test].required && results[u].phase == Failed)
  }

  lemma {:induction false} OwedIsActive(plan: Plan, results: map<Unit, Result>, i: nat)
    ensures ActiveFrom(plan, results, i) == None <==>
      || (plan.failFast && RequiredPhase(plan, results, Failed))
      || forall j :: i <= j < |plan.tests| && !plan.tests[j].scope.OtherScope? ==> AllOver(results, Units(plan, j))
    decreases |plan.tests| - i
  {
    hide AllOver, Units, RequiredPhase;
    if i < |plan.tests| && !Halted(plan, results) { OwedIsActive(plan, results, i + 1); }
  }

  lemma NothingOwedIsIdle(plan: Plan, results: map<Unit, Result>)
    requires PlanOk(plan)
    ensures ActiveFrom(plan, results, 0) == None <==> NothingOwed(plan, results)
  {
    OwedIsActive(plan, results, 0);
    if forall j :: 0 <= j < |plan.tests| && !plan.tests[j].scope.OtherScope? ==> AllOver(results, Units(plan, j)) {
      forall u | UnitOk(plan, u) ensures u in results && results[u].phase.Terminal() {
        UnitListed(plan, u);
        var k :| 0 <= k < |Units(plan, u.test)| && Units(plan, u.test)[k] == u;
        assert AllOver(results, Units(plan, u.test));
        assert Over(results, Units(plan, u.test)[k]);
      }
    }
    if forall u :: UnitOk(plan, u) ==> u in results && results[u].phase.Terminal() {
      forall j | 0 <= j < |plan.tests| && !plan.tests[j].scope.OtherScope? ensures AllOver(results, Units(plan, j)) {
        UnitsOk(plan, j);
      }
    }
  }

  /**
    A run ends exactly when it is done. In every reachable state a pass inside its launch window
    whose writes land ends the run if and only if every verdict the plan owes was given, or a
    required failure stops the plan.
  */
  lemma RunEndsExactlyWhenDone(plan: Plan, existing: set<string>, trace: seq<Action>, env: Env, kills: set<PodId>, released: set<string>)
    requires PlanOk(plan) && Possible(plan, Begun(existing), trace) && env.launch
    ensures var st := RunProtocol.After(plan, Begun(existing), trace);
            var pass := Pass(env, true, kills, released);
            Enabled(plan, st, pass) && Sweeping(plan, st, env).ok ==>
              (Apply(plan, st, pass).phase.Terminal() <==> NothingOwed(plan, st.results))
  {
    ReachableInv(plan, existing, trace);
    var st := RunProtocol.After(plan, Begun(existing), trace);
    hide RunProtocol.After, Possible;
    if Enabled(plan, st, Pass(env, true, kills, released)) && Sweeping(plan, st, env).ok {
      IdleExactly(plan, st, env);
      NothingOwedIsIdle(plan, st.results);
      FinalPhaseEnds(plan, Sweeping(plan, st, env).results);
      PassEnds(plan, st, env, kills, released);
    }
    hide Inv, Sweeping, Enabled, Apply, NothingOwed;
  }

  lemma IdleExactly(plan: Plan, st: State, env: Env)
    requires PlanOk(plan) && Inv(plan, st) && Stepping(st) && Sweeping(plan, st, env).ok
    ensures Sweeping(plan, st, env).Idle() <==> ActiveFrom(plan, st.results, 0) == None
  {
    assert Sound(plan, st.results, st.pods);
    PaddedSelf(plan, st.results);
    var s0 := SweepShape(plan, env, st.results, Seeded(st.results, st.pods, st.stamped), 0);
    hide Inv, SweepUnits, ResultsOk, Padded, ActiveFrom, Halted, UnknownsSettled, LiveNodes, Holding;
  }

  lemma PassEnds(plan: Plan, st: State, env: Env, kills: set<PodId>, released: set<string>)
    requires PlanOk(plan) && Stepping(st) && st.phase.Running? && Sweeping(plan, st, env).ok && env.launch
    requires FinalPhase(plan, Sweeping(plan, st, env).results).Terminal()
    ensures Apply(plan, st, Pass(env, true, kills, released)).phase.Terminal() <==> Sweeping(plan, st, env).Idle()
  {
    hide Sweeping, FinalPhase, CutAll, Extended, Conceded;
  }

  /** What a run that stops early leaves: every verdict owed is given, and one already given stands. */
  ghost predicate Stopped(plan: Plan, before: map<Unit, Result>, after: map<Unit, Result>, phase: Phase) {
    forall u :: UnitOk(plan, u) ==>
      u in after && if u in before && before[u].phase.Terminal() then after[u] == before[u] else after[u].phase == phase
  }

  /**
    A deadline or a cancel leaves nothing unsaid. In every reachable state, the step that ends a
    run for its deadline or drains it to its end gives every verdict still owed by a known test,
    begun or not, the phase Error or Cancelled, and changes none already given.
  */
  lemma EveryOwedVerdictIsStopped(plan: Plan, existing: set<string>, trace: seq<Action>, a: Action)
    requires PlanOk(plan) && Possible(plan, Begun(existing), trace) && Enabled(plan, RunProtocol.After(plan, Begun(existing), trace), a)
    ensures var st := RunProtocol.After(plan, Begun(existing), trace);
            var t := Apply(plan, st, a);
            && (a.Expire? ==> t.phase == Error && Stopped(plan, st.results, t.results, Error))
            && (a.Drain? && t.phase.Terminal() ==>
                  t.phase == Cancelled && Stopped(plan, Sweeping(plan, st, a.env).results, t.results, Cancelled))
  {
    ReachableInv(plan, existing, trace);
    var st := RunProtocol.After(plan, Begun(existing), trace);
    hide RunProtocol.After, Possible;
    if a.Expire? {
      SettlesAll(plan, st.results, Error);
      hide SettleRemaining, CutAll, Stopped;
    } else if a.Drain? {
      SweptFromState(plan, st, a.env);
      var s := Sweeping(plan, st, a.env);
      hide Sweeping, Execute, Spawned, Condemns, GangKept, LiveNodes, Holding, Progress, CutAll, SettleRemaining, Stopped;
      SweptResultsOk(plan, a.env, st, s);
      SettlesAll(plan, s.results, Cancelled);
    }
  }

  lemma SweptResultsOk(plan: Plan, env: Env, st: State, s: Sweep)
    requires SweptFrom(plan, env, st.results, st.pods, st.stamped, s)
    ensures ResultsOk(plan, s.results)
  {
  }

  lemma SettlesAll(plan: Plan, results: map<Unit, Result>, phase: Phase)
    requires ResultsOk(plan, results) && (phase == Error || phase == Cancelled)
    ensures Stopped(plan, results, CutAll(SettleRemaining(plan, results, phase)), phase)
  {
    hide SettleRemaining, CutAll, UnitOk, Owed;
    forall u | UnitOk(plan, u)
      ensures var c := CutAll(SettleRemaining(plan, results, phase));
              u in c && if u in results && results[u].phase.Terminal() then c[u] == results[u] else c[u].phase == phase
    {
      UnitIsOwed(plan, results, u);
      OwedIsStopped(plan, results, phase, u);
    }
  }

  lemma UnitIsOwed(plan: Plan, results: map<Unit, Result>, u: Unit)
    requires ResultsOk(plan, results) && UnitOk(plan, u)
    ensures u in Owed(plan, results)
  {
    UnitListed(plan, u);
    hide ResultOk, Units;
    var k :| 0 <= k < |Units(plan, u.test)| && Units(plan, u.test)[k] == u;
    assert Unit(u.test, []) !in results;
  }

  lemma OwedIsStopped(plan: Plan, results: map<Unit, Result>, phase: Phase, u: Unit)
    requires u in Owed(plan, results) && (phase == Error || phase == Cancelled)
    ensures var c := CutAll(SettleRemaining(plan, results, phase));
            u in c && if u in results && results[u].phase.Terminal() then c[u] == results[u] else c[u].phase == phase
  {
    hide Owed, New, InProgress;
    var b := SettleRemaining(plan, results, phase);
    assert b[u] == Attempts.Stopped(Get(plan, results, u), phase);
    assert !Get(plan, results, u).phase.Terminal() || u in results by { NewIsOpen(plan, u); }
  }

  lemma NewIsOpen(plan: Plan, u: Unit)
    requires u.test < |plan.tests|
    ensures !New(plan.tests[u.test].test).phase.Terminal()
  {
  }

  /** Once a run has ended every result it leaves is settled. */
  ghost predicate AllSettled(st: State) {
    st.phase.Terminal() ==> forall u :: u in st.results ==> st.results[u].phase.Terminal()
  }

  lemma CutCloses(results: map<Unit, Result>)
    ensures forall u :: u in CutAll(results) ==> CutAll(results)[u].phase.Terminal()
  {
  }

  lemma StepCloses(plan: Plan, st: State, a: Action)
    requires PlanOk(plan) && Inv(plan, st) && Enabled(plan, st, a) && AllSettled(st)
    ensures AllSettled(Apply(plan, st, a))
  {
    hide Inv, Sweeping, CutAll, SettleRemaining, Free, LoadOffFirst, AfterPass, AfterDrain, FateOf, DrainEnds, PassEnabled;
    match a
    case Pass(env, commit, kills, released) =>
      var s := Sweeping(plan, st, env);
      PassCloses(plan, st, s, FateOf(s, env.launch, commit), kills, released);
    case Drain(env, immediate, dirty, commit, kills, released) =>
      var s := Sweeping(plan, st, env);
      DrainCloses(plan, st, s, DrainEnds(s, immediate, dirty, commit), commit, kills, released);
    case Expire(_, _) => CutCloses(SettleRemaining(plan, st.results, Error));
    case _ =>
  }

  lemma PassCloses(plan: Plan, st: State, s: Sweep, fate: Fate, kills: set<PodId>, released: set<string>)
    requires !st.phase.Terminal()
    ensures AllSettled(AfterPass(plan, st, s, fate, kills, released))
  {
    CutCloses(s.results);
    hide CutAll, Extended, Conceded, FinalPhase;
  }

  lemma DrainCloses(plan: Plan, st: State, s: Sweep, ends: bool, commit: bool, kills: set<PodId>, released: set<string>)
    requires !st.phase.Terminal()
    ensures AllSettled(AfterDrain(plan, st, s, ends, commit, kills, released))
  {
    CutCloses(SettleRemaining(plan, s.results, Cancelled));
    hide CutAll, SettleRemaining, Extended, Conceded;
  }

  lemma {:induction false} TraceCloses(plan: Plan, st: State, trace: seq<Action>)
    requires PlanOk(plan) && Inv(plan, st) && AllSettled(st) && Possible(plan, st, trace)
    ensures AllSettled(RunProtocol.After(plan, st, trace))
    decreases |trace|
  {
    if trace != [] {
      hide Inv, Enabled, Apply, AllSettled;
      RunInvariant.StepKeeps(plan, st, trace[0]);
      StepCloses(plan, st, trace[0]);
      TraceCloses(plan, Apply(plan, st, trace[0]), trace[1..]);
    }
  }

  /** In every history, a run that has ended leaves no result open. */
  lemma EndedRunIsClosed(plan: Plan, existing: set<string>, trace: seq<Action>)
    requires PlanOk(plan) && Possible(plan, Begun(existing), trace)
    ensures var st := RunProtocol.After(plan, Begun(existing), trace);
            st.phase.Terminal() ==> forall u :: u in st.results ==> st.results[u].phase.Terminal()
  {
    BegunInv(plan, existing);
    TraceCloses(plan, Begun(existing), trace);
  }

  // ---------------------------------------------------------------- what a terminal phase asserts

  /** Failed rests on a required failure, Passed on the absence of one and of any required error, Cancelled on a request. */
  ghost predicate Backed(plan: Plan, st: State) {
    && (st.phase.Failed? ==> RequiredPhase(plan, st.results, Failed))
    && (st.phase.Passed? ==> !RequiredPhase(plan, st.results, Failed) && !RequiredPhase(plan, st.results, Error))
    && (st.phase.Cancelled? ==> st.cancelling)
  }

  lemma CutRequired(plan: Plan, results: map<Unit, Result>, phase: Phase)
    requires phase.Terminal()
    ensures RequiredPhase(plan, results, phase) ==> RequiredPhase(plan, CutAll(results), phase)
    ensures !phase.Error? && RequiredPhase(plan, CutAll(results), phase) ==> RequiredPhase(plan, results, phase)
  {
    var c := CutAll(results);
    if RequiredPhase(plan, results, phase) {
      var u :| u in results && u.test < |plan.tests| && plan.tests[u.test].required && results[u].phase == phase;
      assert u in c && c[u].phase == phase;
    }
    if RequiredPhase(plan, c, phase) && !phase.Error? {
      var u :| u in c && u.test < |plan.tests| && plan.tests[u.test].required && c[u].phase == phase;
      assert results[u].phase == phase;
    }
  }

  /** Nothing required was open when the run passed, so closing the books invented no error. */
  lemma AcceptedHasNoError(plan: Plan, results: map<Unit, Result>)
    requires PlanOk(plan) && ResultsOk(plan, results) && Accepted(plan, CutAll(results)) && !RequiredPhase(plan, results, Error)
    ensures !RequiredPhase(plan, CutAll(results), Error)
  {
    var c := CutAll(results);
    forall u | u in c && u.test < |plan.tests| && plan.tests[u.test].required ensures !c[u].phase.Error? {
      assert !plan.tests[u.test].scope.OtherScope?;
      assert UnitOk(plan, u);
      hide ResultsOk, CutAll, Accepted;
      UnitOfAccepted(plan, c, u);
    }
  }

  lemma UnitOfAccepted(plan: Plan, c: map<Unit, Result>, u: Unit)
    requires Accepted(plan, c) && UnitOk(plan, u) && plan.tests[u.test].required
    ensures u in c && (c[u].phase.Skipped? || c[u].phase.Passed?)
  {
    UnitListed(plan, u);
    var k :| 0 <= k < |Units(plan, u.test)| && Units(plan, u.test)[k] == u;
    assert u in c && (c[u].phase.Skipped? || c[u].phase.Passed?);
  }

  lemma FinalBacked(plan: Plan, st: State, env: Env, kills: set<PodId>, released: set<string>)
    requires PlanOk(plan) && Inv(plan, st) && Stepping(st) && env.claimable == st.existing - st.foreign && Sweeping(plan, st, env).Idle()
    ensures var s := Sweeping(plan, st, env);
            Backed(plan, Terminated(Written(st, s), s.results, FinalPhase(plan, s.results), kills, released))
  {
    assert Sound(plan, st.results, st.pods);
    SweptFromState(plan, st, env);
    var s := Sweeping(plan, st, env);
    hide Sweeping, Execute, Inv, Sound;
    ProgressOk(plan, env, st, s);
    CutRequired(plan, s.results, Failed);
    hide SweptFrom, ResultsOk, CutAll, RequiredPhase, ActiveFrom, Padded, UnknownsSettled, Halted;
    if FinalPhase(plan, s.results).Passed? {
      FinalAccepted(plan, st.results, s.results);
      AcceptedHasNoError(plan, s.results);
    }
  }

  /** A required verdict that is no pass rules acceptance out. */
  lemma AcceptedHasNo(plan: Plan, results: map<Unit, Result>, phase: Phase)
    requires PlanOk(plan) && ResultsOk(plan, results) && Accepted(plan, CutAll(results)) && (phase.Failed? || phase.Error?)
    ensures !RequiredPhase(plan, results, phase)
  {
    if RequiredPhase(plan, results, phase) {
      var u :| u in results && u.test < |plan.tests| && plan.tests[u.test].required && results[u].phase == phase;
      assert !plan.tests[u.test].scope.OtherScope?;
      assert UnitOk(plan, u);
      assert CutAll(results)[u].phase == phase;
      hide ResultsOk, CutAll, Accepted;
      UnitOfAccepted(plan, CutAll(results), u);
    }
  }

  /**
    The pass that ends a run calls it Passed exactly when every unit of every required test
    was skipped or earned its pass, Failed exactly when some required unit failed, and Error
    otherwise, all of the results it leaves behind. In every reachable state.
  */
  lemma FinalizeExactly(plan: Plan, existing: set<string>, trace: seq<Action>, env: Env, kills: set<PodId>, released: set<string>)
    requires PlanOk(plan) && Possible(plan, Begun(existing), trace)
    ensures var st := RunProtocol.After(plan, Begun(existing), trace);
            var last := Pass(env, true, kills, released);
            Enabled(plan, st, last) && FateOf(Sweeping(plan, st, env), env.launch, true).Finalize? ==>
              var end := Apply(plan, st, last);
              && (end.phase.Passed? <==> Accepted(plan, end.results))
              && (end.phase.Failed? <==> RequiredPhase(plan, end.results, Failed))
              && (end.phase.Error? <==> !end.phase.Passed? && !end.phase.Failed?)
  {
    ReachableInv(plan, existing, trace);
    var st := RunProtocol.After(plan, Begun(existing), trace);
    hide RunProtocol.After, Possible, Inv, Enabled, Apply, FateOf, FinalPhase, Sweeping, CutAll, Accepted, RequiredPhase;
    if Enabled(plan, st, Pass(env, true, kills, released)) && FateOf(Sweeping(plan, st, env), env.launch, true).Finalize? {
      LastPass(plan, st, env, kills, released);
      Verdicts(plan, st, env);
    }
  }

  lemma LastPass(plan: Plan, st: State, env: Env, kills: set<PodId>, released: set<string>)
    requires PlanOk(plan) && Enabled(plan, st, Pass(env, true, kills, released)) && FateOf(Sweeping(plan, st, env), env.launch, true).Finalize?
    ensures var s := Sweeping(plan, st, env);
            var end := Apply(plan, st, Pass(env, true, kills, released));
            && Stepping(st) && s.Idle() && end.results == CutAll(s.results) && end.phase == FinalPhase(plan, s.results)
            && (end.phase.Failed? || end.phase.Error? || end.phase.Passed?)
  {
    hide Sweeping, LoadOffFirst, Free, CutAll, RequiredPhase, Conceded, Extended;
  }

  lemma Verdicts(plan: Plan, st: State, env: Env)
    requires PlanOk(plan) && Inv(plan, st) && Stepping(st) && Sweeping(plan, st, env).Idle()
    ensures var results := Sweeping(plan, st, env).results;
            && (FinalPhase(plan, results).Passed? <==> Accepted(plan, CutAll(results)))
            && (FinalPhase(plan, results).Failed? <==> RequiredPhase(plan, CutAll(results), Failed))
  {
    assert Sound(plan, st.results, st.pods);
    SweptFromState(plan, st, env);
    var s := Sweeping(plan, st, env);
    hide Sweeping, Execute, Inv, Sound;
    ProgressOk(plan, env, st, s);
    CutRequired(plan, s.results, Failed);
    hide SweptFrom, ResultsOk, CutAll, RequiredPhase, ActiveFrom, Padded, UnknownsSettled, Halted, Accepted;
    if FinalPhase(plan, s.results).Passed? { FinalAccepted(plan, st.results, s.results); }
    if Accepted(plan, CutAll(s.results)) {
      AcceptedHasNo(plan, s.results, Failed);
      AcceptedHasNo(plan, s.results, Error);
    }
  }

  lemma StepBacked(plan: Plan, st: State, a: Action)
    requires PlanOk(plan) && Inv(plan, st) && Enabled(plan, st, a) && Backed(plan, st)
    ensures Backed(plan, Apply(plan, st, a))
  {
    hide Inv, RequiredPhase, Sweeping, CutAll, SettleRemaining, LoadOffFirst, Free, Conceded, Extended;
    if a.Pass? {
      hide FinalPhase;
      if FateOf(Sweeping(plan, st, a.env), a.env.launch, a.commit).Finalize? {
        FinalBacked(plan, st, a.env, a.kills, a.released);
      }
    }
  }

  /** In every reachable state the run's phase is backed by its results and its requests. */
  lemma {:induction false} PhaseIsBacked(plan: Plan, st: State, trace: seq<Action>)
    requires PlanOk(plan) && Inv(plan, st) && Backed(plan, st) && Possible(plan, st, trace)
    ensures Backed(plan, RunProtocol.After(plan, st, trace))
    decreases |trace|
  {
    if trace != [] {
      hide Inv, Enabled, Apply, Backed;
      RunInvariant.StepKeeps(plan, st, trace[0]);
      StepBacked(plan, st, trace[0]);
      PhaseIsBacked(plan, Apply(plan, st, trace[0]), trace[1..]);
    }
  }
}
