/** What one visit to one execution unit, and one whole sweep, may and may not do. */
module ExecutionFacts {
  import opened Base
  import opened Verdict
  import opened Soak
  import opened Attempts
  import opened AttemptHistory
  import opened AttemptVerdict
  import opened Execution

  // ---------------------------------------------------------------- results

  predicate ResultOk(test: Test, r: Result) {
    HistoryOk(r) && Earned(test, r) && !r.phase.Cancelled?
  }

  predicate ResultsOk(plan: Plan, results: map<Unit, Result>) {
    forall u :: u in results ==>
      && u.test < |plan.tests|
      && ResultOk(plan.tests[u.test].test, results[u])
      && (UnitOk(plan, u) || (u.nodes == [] && plan.tests[u.test].scope.OtherScope? && results[u].phase.Error?))
  }

  lemma NewOk(test: Test)
    ensures ResultOk(test, New(test))
  {
  }

  /** Only this unit's result moved, and it moved forward. */
  predicate Moved(plan: Plan, results: map<Unit, Result>, u: Unit, results': map<Unit, Result>)
    requires u.test < |plan.tests|
  {
    && results.Keys <= results'.Keys <= results.Keys + {u}
    && (forall v :: v in results && v != u ==> results'[v] == results[v])
    && (u in results' ==> ResultOk(plan.tests[u.test].test, results'[u]))
    && Current(plan, results', u) >= Current(plan, results, u)
  }

  /** The current attempt is on record as finished. */
  predicate OnRecord(plan: Plan, results: map<Unit, Result>, u: Unit, attempt: int)
    requires u.test < |plan.tests|
  {
    u in results && Current(plan, results, u) > attempt
  }

  predicate Ready(plan: Plan, results: map<Unit, Result>, u: Unit) {
    u.test < |plan.tests| && !Over(results, u) && (u in results ==> ResultOk(plan.tests[u.test].test, results[u]))
  }

  lemma PlayedMoves(plan: Plan, env: Env, s: Sweep, u: Unit, e: Event)
    requires u.test < |plan.tests| && Ready(plan, s.results, u) && (e.Begin? || e.Sample? || e.Finish?)
    ensures var s' := Played(plan, env, s, u, e);
            && s' == s.(results := s'.results, log := s'.log)
            && u in s'.results
            && Moved(plan, s.results, u, s'.results)
            && (e.Finish? ==> OnRecord(plan, s'.results, u, Current(plan, s.results, u)))
            && (!e.Finish? ==> Ready(plan, s'.results, u))
  {
    hide HistoryOk, Earned, Step, NextNumber;
    var test := plan.tests[u.test].test;
    var r := Get(plan, s.results, u);
    NewOk(test);
    StepEarned(plan.rules, test, r, e);
    NumbersMoveOn(plan.rules, test, r, e);
    if !e.Finish? { QuietStaysOpen(plan.rules, test, r, e); }
  }

  lemma QuietStaysOpen(rules: Rules, test: Test, r: Result, e: Event)
    requires e.Begin? || e.Sample?
    ensures Step(rules, test, r, e).phase == r.phase
  {
  }

  lemma FinishedMoves(plan: Plan, env: Env, s: Sweep, u: Unit, parsed: Parsed)
    requires u.test < |plan.tests| && Ready(plan, s.results, u)
    ensures var s' := Finished(plan, env, s, u, parsed);
            && s' == s.(results := s'.results, log := s'.log, harvested := true)
            && Moved(plan, s.results, u, s'.results)
            && OnRecord(plan, s'.results, u, Current(plan, s.results, u))
  {
    PlayedMoves(plan, env, s, u, Finish(parsed, env.limit));
    hide Moved, Ready, OnRecord, Played;
  }

  lemma WatchedMoves(plan: Plan, env: Env, s: Sweep, u: Unit, id: PodId)
    requires u.test < |plan.tests| && Ready(plan, s.results, u)
    ensures var s' := Watched(plan, env, s, u, id);
            && s' == s.(results := s'.results, log := s'.log, running := true)
            && Moved(plan, s.results, u, s'.results)
  {
    hide Played, Ready, Moved;
    PlayedMoves(plan, env, s, u, Begin);
    if env.sample(id).Some? {
      var begun := Played(plan, env, s, u, Begin);
      var e := Sample(env.now, env.sample(id).value);
      PlayedMoves(plan, env, begun, u, e);
      MovedTwice(plan, s.results, u, begun.results, Played(plan, env, begun, u, e).results);
    }
  }

  lemma MovedTwice(plan: Plan, a: map<Unit, Result>, u: Unit, b: map<Unit, Result>, c: map<Unit, Result>)
    requires u.test < |plan.tests| && Moved(plan, a, u, b) && Moved(plan, b, u, c)
    ensures Moved(plan, a, u, c)
  {
    hide ResultOk, Current;
  }

  // ---------------------------------------------------------------- pods, nodes, kills

  /** Why a pod may be created. */
  predicate MayCreate(plan: Plan, env: Env, s: Sweep, u: Unit, s': Sweep, id: PodId)
    requires u.test < |plan.tests|
  {
    && env.launch
    && id.unit == u && id.attempt == Current(plan, s.results, u) && id.rank < |u.nodes|
    && id in s'.pods && s'.pods[id] == NEW_POD
    && NodeSet(u) <= s'.busy
    && (if id.rank == 0 then
          NodeSet(u) * env.claimable <= s'.stamped && (|s'.busy| <= env.cap || NodeSet(u) <= s.busy)
        else
          var root := PodId(u, 0, id.attempt);
          root in s.pods && s.pods[root].Ready())
  }

  predicate PodsGrow(plan: Plan, env: Env, s: Sweep, u: Unit, s': Sweep)
    requires u.test < |plan.tests|
  {
    && (forall id :: id in s.pods ==> id in s'.pods && s'.pods[id] == s.pods[id])
    && (forall id :: id in s'.pods && id !in s.pods ==> MayCreate(plan, env, s, u, s', id))
  }

  predicate BusyGrows(plan: Plan, env: Env, s: Sweep, u: Unit, s': Sweep)
    requires u.test < |plan.tests|
  {
    && s.busy <= s'.busy <= s.busy + NodeSet(u)
    && (s'.busy == s.busy || AnyLive(s.pods, u, Current(plan, s.results, u)) || (env.launch && |s'.busy| <= env.cap))
    && (AnyLive(s.pods, u, Current(plan, s.results, u)) ==> NodeSet(u) <= s'.busy)
    && s.stamped <= s'.stamped <= s.stamped + (NodeSet(u) * env.claimable)
    && (s'.ok ==> s'.stamped <= s.stamped + s'.busy)
    && (!env.launch && s.ok ==> s'.ok)
  }

  predicate KillsGrow(plan: Plan, s: Sweep, u: Unit, s': Sweep)
    requires u.test < |plan.tests|
  {
    && s.kill <= s'.kill
    && forall id :: id in s'.kill && id !in s.kill ==>
         id.unit == u && id in s.pods && OnRecord(plan, s'.results, u, id.attempt)
  }

  /** A visit to a unit that is not over. */
  predicate Visited(plan: Plan, env: Env, s: Sweep, u: Unit, s': Sweep)
    requires u.test < |plan.tests|
  {
    && Moved(plan, s.results, u, s'.results)
    && PodsGrow(plan, env, s, u, s')
    && BusyGrows(plan, env, s, u, s')
    && KillsGrow(plan, s, u, s')
    && !s'.Idle()
  }

  /** A visit that only completes or watches the attempt. */
  lemma VisitedInPlace(plan: Plan, env: Env, s: Sweep, u: Unit, s': Sweep)
    requires u.test < |plan.tests|
    requires Moved(plan, s.results, u, s'.results)
    requires s'.pods == s.pods && s'.stamped == s.stamped && s'.ok == s.ok && !s'.Idle()
    requires s'.busy == s.busy || (AnyLive(s.pods, u, Current(plan, s.results, u)) && s'.busy == s.busy + NodeSet(u))
    requires AnyLive(s.pods, u, Current(plan, s.results, u)) ==> NodeSet(u) <= s'.busy
    requires KillsGrow(plan, s, u, s')
    ensures Visited(plan, env, s, u, s')
  {
  }

  lemma NoKills(plan: Plan, s: Sweep, u: Unit, s': Sweep)
    requires u.test < |plan.tests| && s'.kill == s.kill
    ensures KillsGrow(plan, s, u, s')
  {
  }

  /** The sweep as a pair or group sees it: every node counted once one of its pods is live. */
  function Claimed(plan: Plan, s: Sweep, u: Unit): Sweep
    requires u.test < |plan.tests|
  {
    if AnyLive(s.pods, u, Current(plan, s.results, u)) then s.(busy := s.busy + NodeSet(u)) else s
  }

  predicate Own(plan: Plan, s: Sweep, u: Unit, ids: set<PodId>)
    requires u.test < |plan.tests|
  {
    forall id :: id in ids ==> id in s.pods && id.unit == u && id.attempt == Current(plan, s.results, u)
  }

  /** A visit that records the attempt, condemning some of its pods. */
  lemma FinishVisited(plan: Plan, env: Env, s: Sweep, u: Unit, kill: set<PodId>, parsed: Parsed)
    requires u.test < |plan.tests| && Ready(plan, s.results, u) && Own(plan, s, u, kill)
    ensures var t := Claimed(plan, s, u);
            Visited(plan, env, s, u, Finished(plan, env, t.(kill := t.kill + kill), u, parsed))
  {
    hide Ready, Moved, Finished, OnRecord, Current, AnyLive, NodeSet;
    var t := Claimed(plan, s, u);
    FinishedMoves(plan, env, t.(kill := t.kill + kill), u, parsed);
    VisitedInPlace(plan, env, s, u, Finished(plan, env, t.(kill := t.kill + kill), u, parsed));
  }

  lemma FinishVisitedPlain(plan: Plan, env: Env, s: Sweep, u: Unit, parsed: Parsed)
    requires u.test < |plan.tests| && Ready(plan, s.results, u)
    ensures Visited(plan, env, s, u, Finished(plan, env, Claimed(plan, s, u), u, parsed))
  {
    hide Ready, Visited, Finished;
    var t := Claimed(plan, s, u);
    FinishVisited(plan, env, s, u, {}, parsed);
    assert t.(kill := t.kill + {}) == t;
  }

  /** A visit that opens the attempt and perhaps samples it. */
  lemma WatchVisited(plan: Plan, env: Env, s: Sweep, u: Unit, id: PodId)
    requires u.test < |plan.tests| && Ready(plan, s.results, u)
    ensures Visited(plan, env, s, u, Watched(plan, env, Claimed(plan, s, u), u, id))
  {
    hide Ready, Moved, Watched, OnRecord, Current, AnyLive, NodeSet, KillsGrow, Visited;
    var t := Claimed(plan, s, u);
    WatchedMoves(plan, env, t, u, id);
    NoKills(plan, s, u, Watched(plan, env, t, u, id));
    VisitedInPlace(plan, env, s, u, Watched(plan, env, t, u, id));
  }

  /** A visit that waits. */
  lemma WaitVisited(plan: Plan, env: Env, s: Sweep, u: Unit, s': Sweep)
    requires u.test < |plan.tests| && Ready(plan, s.results, u)
    requires var t := Claimed(plan, s, u);
             s' == t.(results := s'.results, log := s'.log, running := s'.running, pending := s'.pending) && (s'.running || s'.pending)
    requires Moved(plan, s.results, u, s'.results)
    ensures Visited(plan, env, s, u, s')
  {
    hide Ready, Moved, OnRecord, Current, AnyLive, NodeSet, KillsGrow, Visited;
    NoKills(plan, s, u, s');
    VisitedInPlace(plan, env, s, u, s');
  }

  lemma NodeAnyLive(pods: map<PodId, Pod>, u: Unit, attempt: int)
    requires |u.nodes| == 1
    ensures AnyLive(pods, u, attempt) <==> PodId(u, 0, attempt) in pods && pods[PodId(u, 0, attempt)].Live()
    ensures NodeSet(u) == {u.nodes[0]}
  {
    var id := PodId(u, 0, attempt);
    if id in pods { assert id in AttemptPods(pods, u, attempt); }
  }

  lemma StayPut(plan: Plan, results: map<Unit, Result>, u: Unit)
    requires u.test < |plan.tests| && Ready(plan, results, u)
    ensures Moved(plan, results, u, results)
  {
  }

  lemma NodeWatched(plan: Plan, env: Env, s: Sweep, u: Unit, id: PodId)
    requires u.test < |plan.tests| && Ready(plan, s.results, u) && |u.nodes| == 1 && s.ok
    requires id == PodId(u, 0, Current(plan, s.results, u)) && id in s.pods
    ensures Visited(plan, env, s, u, AdvanceNode(plan, env, s, u))
  {
    hide Ready, Moved, Finished, Watched, AnyLive, NodeSet, LogRule, Current, Visited;
    NodeAnyLive(s.pods, u, id.attempt);
    StayPut(plan, s.results, u);
    var t := Claimed(plan, s, u);
    assert t == if s.pods[id].Live() then s.(busy := s.busy + {u.nodes[0]}) else s;
    if s.pods[id].Ended() {
      FinishVisitedPlain(plan, env, s, u, LogRule(plan.tests[u.test].test, env.report(id)));
    } else if env.overdue(id) {
      FinishVisited(plan, env, s, u, {id}, MACHINERY_ERROR);
    } else if s.pods[id].Started() {
      WatchVisited(plan, env, s, u, id);
    } else {
      WaitVisited(plan, env, s, u, t.(running := true));
    }
  }

  lemma NodeStarted(plan: Plan, env: Env, s: Sweep, u: Unit, id: PodId)
    requires u.test < |plan.tests| && Ready(plan, s.results, u) && |u.nodes| == 1 && s.ok
    requires id == PodId(u, 0, Current(plan, s.results, u)) && id !in s.pods
    ensures Visited(plan, env, s, u, AdvanceNode(plan, env, s, u))
  {
    hide Ready, Moved, Finished, AnyLive, NodeSet, OnRecord, Current, Visited, KillsGrow;
    NodeAnyLive(s.pods, u, id.attempt);
    StayPut(plan, s.results, u);
    NoKills(plan, s, u, s);
    var node := u.nodes[0];
    var stamped := s.stamped + ({node} * env.claimable);
    if !env.launch || (node !in s.busy && |s.busy| >= env.cap) {
      VisitedInPlace(plan, env, s, u, s.(pending := true));
    } else if !env.builds(id) {
      FinishedMoves(plan, env, s, u, MACHINERY_ERROR);
      NoKills(plan, s, u, Finished(plan, env, s, u, MACHINERY_ERROR));
      VisitedInPlace(plan, env, s, u, Finished(plan, env, s, u, MACHINERY_ERROR));
    } else if !env.cordons(node) {
      VisitedStamping(plan, env, s, u, s.stamped, s.busy);
    } else if !env.creates(id) {
      VisitedStamping(plan, env, s, u, stamped, s.busy);
    } else {
      if node !in s.busy { assert |s.busy + {node}| == |s.busy| + 1; }
      VisitedStart(plan, env, s, u, stamped, id);
    }
  }

  /** A visit that stamps nodes and is then abandoned. */
  lemma VisitedStamping(plan: Plan, env: Env, s: Sweep, u: Unit, stamped: set<string>, busy: set<string>)
    requires u.test < |plan.tests| && Ready(plan, s.results, u) && env.launch
    requires s.stamped <= stamped <= s.stamped + (NodeSet(u) * env.claimable)
    requires busy == if AnyLive(s.pods, u, Current(plan, s.results, u)) then s.busy + NodeSet(u) else s.busy
    ensures Visited(plan, env, s, u, s.(stamped := stamped, busy := busy, ok := false))
  {
    StayPut(plan, s.results, u);
    hide Moved, Ready, AnyLive, NodeSet, Current;
  }

  /** A visit that creates the first pod of a unit. */
  lemma VisitedStart(plan: Plan, env: Env, s: Sweep, u: Unit, stamped: set<string>, id: PodId)
    requires u.test < |plan.tests| && Ready(plan, s.results, u) && env.launch
    requires id == PodId(u, 0, Current(plan, s.results, u)) && id !in s.pods && |u.nodes| > 0
    requires stamped == s.stamped + (NodeSet(u) * env.claimable)
    requires |s.busy + NodeSet(u)| <= env.cap || NodeSet(u) <= s.busy
    ensures Visited(plan, env, s, u, s.(stamped := stamped, pods := s.pods[id := NEW_POD], busy := s.busy + NodeSet(u), running := true))
  {
    StayPut(plan, s.results, u);
    hide Moved, Ready, AnyLive, NodeSet, Current;
    if NodeSet(u) <= s.busy { assert s.busy + NodeSet(u) == s.busy; }
  }

  lemma NodeVisited(plan: Plan, env: Env, s: Sweep, u: Unit)
    requires u.test < |plan.tests| && Ready(plan, s.results, u) && |u.nodes| == 1 && s.ok
    ensures Visited(plan, env, s, u, AdvanceNode(plan, env, s, u))
  {
    var id := PodId(u, 0, Current(plan, s.results, u));
    if id in s.pods { NodeWatched(plan, env, s, u, id); } else { NodeStarted(plan, env, s, u, id); }
  }

  // ---------------------------------------------------------------- visits to pairs and groups

  lemma {:induction false} WaveStamps(env: Env, stamped: set<string>, nodes: seq<string>)
    ensures stamped <= StampWave(env, stamped, nodes) <= stamped + ((set n | n in nodes) * env.claimable)
    ensures AllCordon(env, nodes) ==> StampWave(env, stamped, nodes) == stamped + ((set n | n in nodes) * env.claimable)
    decreases |nodes|
  {
    if nodes != [] && env.cordons(nodes[0]) {
      WaveStamps(env, stamped + ({nodes[0]} * env.claimable), nodes[1..]);
      assert nodes == [nodes[0]] + nodes[1..];
      assert (set n | n in nodes) == {nodes[0]} + (set n | n in nodes[1..]);
      assert AllCordon(env, nodes) ==> AllCordon(env, nodes[1..]);
    }
  }

  lemma StartVisited(plan: Plan, env: Env, s: Sweep, u: Unit)
    requires u.test < |plan.tests| && Ready(plan, s.results, u) && |u.nodes| >= 2 && s.ok
    requires PodId(u, 0, Current(plan, s.results, u)) !in s.pods
    ensures Visited(plan, env, s, u, StartUnit(plan, env, Claimed(plan, s, u), u))
  {
    hide Ready, Moved, Finished, AnyLive, Current, Visited, StampWave, AllCordon;
    var t := Claimed(plan, s, u);
    var id := PodId(u, 0, Current(plan, s.results, u));
    StayPut(plan, s.results, u);
    WaveStamps(env, s.stamped, u.nodes);
    var stamped := StampWave(env, s.stamped, u.nodes);
    assert t.busy + NodeSet(u) == s.busy + NodeSet(u);
    if !env.launch || |t.busy + NodeSet(u)| > env.cap {
      WaitVisited(plan, env, s, u, t.(pending := true));
    } else if !env.builds(id) {
      FinishVisitedPlain(plan, env, s, u, MACHINERY_ERROR);
    } else if !AllCordon(env, u.nodes) || !env.creates(id) {
      VisitedStamping(plan, env, s, u, stamped, t.busy);
    } else {
      VisitedStart(plan, env, s, u, stamped, id);
    }
  }

  /** Later ranks joined. */
  predicate Joined(pods: map<PodId, Pod>, u: Unit, attempt: int, pods': map<PodId, Pod>) {
    && (forall id :: id in pods ==> id in pods' && pods'[id] == pods[id])
    && (forall id :: id in pods' && id !in pods ==> id.unit == u && id.attempt == attempt && 0 < id.rank < |u.nodes| && pods'[id] == NEW_POD)
  }

  /** Some of the remaining ranks are created, behind a Ready first rank. */
  lemma {:induction false} RestCreated(plan: Plan, env: Env, s: Sweep, u: Unit, attempt: int, rank: nat)
    requires u.test < |plan.tests| && Ready(plan, s.results, u) && s.ok && rank > 0
    ensures var s' := CreateRest(plan, env, s, u, attempt, rank);
            && Moved(plan, s.results, u, s'.results)
            && s'.busy == s.busy && s'.stamped == s.stamped && s'.kill == s.kill
            && !s'.Idle()
            && Joined(s.pods, u, attempt, s'.pods)
    decreases |u.nodes| - rank
  {
    hide Ready, Moved, Finished, OnRecord, Current, Joined;
    StayPut(plan, s.results, u);
    JoinedNone(s.pods, u, attempt);
    if rank < |u.nodes| {
      var id := RankId(u, rank, attempt);
      if id in s.pods {
        RestCreated(plan, env, s, u, attempt, rank + 1);
      } else if !env.builds(id) {
        FinishedMoves(plan, env, s, u, MACHINERY_ERROR);
      } else if env.creates(id) {
        var t := s.(pods := s.pods[id := NEW_POD]);
        RestCreated(plan, env, t, u, attempt, rank + 1);
        JoinedOne(s.pods, u, attempt, rank, CreateRest(plan, env, t, u, attempt, rank + 1).pods);
      }
    }
  }

  lemma JoinedNone(pods: map<PodId, Pod>, u: Unit, attempt: int)
    ensures Joined(pods, u, attempt, pods)
  {
  }

  lemma JoinedOne(pods: map<PodId, Pod>, u: Unit, attempt: int, rank: nat, pods': map<PodId, Pod>)
    requires 0 < rank < |u.nodes| && RankId(u, rank, attempt) !in pods
    requires Joined(pods[RankId(u, rank, attempt) := NEW_POD], u, attempt, pods')
    ensures Joined(pods, u, attempt, pods')
  {
  }

  lemma GateVisited(plan: Plan, env: Env, s: Sweep, u: Unit)
    requires u.test < |plan.tests| && Ready(plan, s.results, u) && |u.nodes| >= 2 && s.ok
    requires PodId(u, 0, Current(plan, s.results, u)) in s.pods
    ensures Visited(plan, env, s, u, GateUnit(plan, env, Claimed(plan, s, u), u))
  {
    hide Ready, Moved, Finished, Current, Visited, Played, CombinePair, CreateRest, AnyLive, AttemptPods, Claimed;
    var t := Claimed(plan, s, u);
    ClaimedKeeps(plan, s, u);
    var attempt := Current(plan, s.results, u);
    var id := PodId(u, 0, attempt);
    var root := s.pods[id];
    if root.Ended() && plan.tests[u.test].scope.PairScope? {
      FinishVisitedPlain(plan, env, s, u, CombinePair(plan.tests[u.test].test, Some(env.report(id).parsed), None, env.report(id).logLost));
    } else if root.Ended() {
      OwnAttempt(plan, s, u);
      FinishVisited(plan, env, s, u, AttemptPods(s.pods, u, attempt), env.collective(u));
    } else if env.overdue(id) {
      OwnAttempt(plan, s, u);
      FinishVisited(plan, env, s, u, AttemptPods(s.pods, u, attempt), MACHINERY_ERROR);
    } else if !root.Started() {
      StayPut(plan, s.results, u);
      WaitVisited(plan, env, s, u, t.(running := true));
    } else if root.Ready() && env.launch {
      JoinVisited(plan, env, s, u);
    } else {
      PlayedMoves(plan, env, t, u, Begin);
      var begun := Played(plan, env, t, u, Begin);
      WaitVisited(plan, env, s, u, if root.Ready() then begun.(pending := true) else begun.(running := true));
    }
  }

  lemma ClaimedKeeps(plan: Plan, s: Sweep, u: Unit)
    requires u.test < |plan.tests|
    ensures Claimed(plan, s, u).pods == s.pods && Claimed(plan, s, u).results == s.results && Claimed(plan, s, u).kill == s.kill
  {
  }

  lemma OwnAttempt(plan: Plan, s: Sweep, u: Unit)
    requires u.test < |plan.tests|
    ensures Own(plan, s, u, AttemptPods(s.pods, u, Current(plan, s.results, u)))
  {
    hide Current;
  }

  lemma JoinVisited(plan: Plan, env: Env, s: Sweep, u: Unit)
    requires u.test < |plan.tests| && Ready(plan, s.results, u) && |u.nodes| >= 2 && s.ok && env.launch
    requires PodId(u, 0, Current(plan, s.results, u)) in s.pods
    requires s.pods[PodId(u, 0, Current(plan, s.results, u))].Ready()
    ensures var begun := Played(plan, env, Claimed(plan, s, u), u, Begin);
            Visited(plan, env, s, u, CreateRest(plan, env, begun, u, Current(plan, s.results, u), 1))
  {
    hide Ready, Current, Played, CreateRest, AnyLive, Moved, Joined, Visited;
    var attempt := Current(plan, s.results, u);
    var t := Claimed(plan, s, u);
    RootLive(s.pods, u, attempt);
    PlayedMoves(plan, env, t, u, Begin);
    var begun := Played(plan, env, t, u, Begin);
    RestCreated(plan, env, begun, u, attempt, 1);
    var s' := CreateRest(plan, env, begun, u, attempt, 1);
    MovedTwice(plan, s.results, u, begun.results, s'.results);
    VisitedJoin(plan, env, s, u, s');
  }

  lemma RootLive(pods: map<PodId, Pod>, u: Unit, attempt: int)
    requires |u.nodes| >= 2 && PodId(u, 0, attempt) in pods && pods[PodId(u, 0, attempt)].Ready()
    ensures AnyLive(pods, u, attempt)
  {
    assert PodId(u, 0, attempt) in AttemptPods(pods, u, attempt);
  }

  lemma VisitedJoin(plan: Plan, env: Env, s: Sweep, u: Unit, s': Sweep)
    requires u.test < |plan.tests| && Moved(plan, s.results, u, s'.results) && env.launch
    requires AnyLive(s.pods, u, Current(plan, s.results, u))
    requires PodId(u, 0, Current(plan, s.results, u)) in s.pods && s.pods[PodId(u, 0, Current(plan, s.results, u))].Ready()
    requires s'.busy == s.busy + NodeSet(u) && s'.stamped == s.stamped && s'.kill == s.kill && !s'.Idle()
    requires Joined(s.pods, u, Current(plan, s.results, u), s'.pods)
    ensures Visited(plan, env, s, u, s')
  {
    hide Current, AnyLive, Moved, NodeSet;
  }

  lemma PairVisited(plan: Plan, env: Env, s: Sweep, u: Unit)
    requires u.test < |plan.tests| && Ready(plan, s.results, u) && |u.nodes| == 2 && s.ok
    requires Complete(s.pods, u, Current(plan, s.results, u))
    ensures var t := Claimed(plan, s, u);
            && (forall rank: nat :: rank < 2 ==> RankId(u, rank, Current(plan, t.results, u)) in t.pods)
            && Visited(plan, env, s, u, HarvestPair(plan, env, t, u))
  {
    hide Ready, Finished, Watched, Current, Visited, CombinePair, AnyLive;
    var t := Claimed(plan, s, u);
    var attempt := Current(plan, s.results, u);
    var server, client := RankId(u, 0, attempt), RankId(u, 1, attempt);
    var test := plan.tests[u.test].test;
    var h, g := env.report(client), env.report(server);
    if !s.pods[client].Ended() {
      FinishVisited(plan, env, s, u, {server, client}, MACHINERY_ERROR);
      WatchVisited(plan, env, s, u, client);
    } else if s.pods[server].Ended() {
      FinishVisitedPlain(plan, env, s, u, CombinePair(test, Some(g.parsed), Some(h.parsed), h.logLost || g.logLost));
    } else {
      FinishVisited(plan, env, s, u, {server}, CombinePair(test, None, Some(h.parsed), h.logLost));
    }
  }

  lemma GroupVisited(plan: Plan, env: Env, s: Sweep, u: Unit)
    requires u.test < |plan.tests| && Ready(plan, s.results, u) && s.ok
    ensures Visited(plan, env, s, u, HarvestGroup(plan, env, Claimed(plan, s, u), u))
  {
    hide Ready, Finished, Watched, Current, Visited, AnyLive;
    var attempt := Current(plan, s.results, u);
    FinishVisited(plan, env, s, u, AttemptPods(s.pods, u, attempt), MACHINERY_ERROR);
    WatchVisited(plan, env, s, u, RankId(u, 0, attempt));
    FinishVisitedPlain(plan, env, s, u, env.collective(u));
  }

  /** Every visit to a unit that is not over keeps to the rules. */
  lemma AdvanceVisited(plan: Plan, env: Env, s: Sweep, u: Unit)
    requires UnitOk(plan, u) && Ready(plan, s.results, u) && s.ok
    ensures Visited(plan, env, s, u, Advance(plan, env, s, u))
  {
    var attempt := Current(plan, s.results, u);
    var t := Claimed(plan, s, u);
    assert Current(plan, t.results, u) == attempt && t.pods == s.pods;
    if !plan.tests[u.test].scope.PairScope? && !plan.tests[u.test].scope.GroupScope? {
      NodeVisited(plan, env, s, u);
    } else if PodId(u, 0, attempt) !in s.pods {
      StartVisited(plan, env, s, u);
    } else if !Complete(s.pods, u, attempt) {
      GateVisited(plan, env, s, u);
    } else if plan.tests[u.test].scope.PairScope? {
      PairVisited(plan, env, s, u);
    } else {
      GroupVisited(plan, env, s, u);
    }
    hide Visited, StartUnit, GateUnit, HarvestPair, HarvestGroup, AdvanceNode, Current, AnyLive;
  }

  /** Only the start of a pair or group stamps its nodes. */
  lemma GangStampsAtStart(plan: Plan, env: Env, s: Sweep, u: Unit)
    requires UnitOk(plan, u) && Ready(plan, s.results, u) && s.ok
    requires plan.tests[u.test].scope.PairScope? || plan.tests[u.test].scope.GroupScope?
    requires PodId(u, 0, Current(plan, s.results, u)) in s.pods
    ensures Advance(plan, env, s, u).stamped == s.stamped
  {
    hide Finished, Watched, CreateRest, CombinePair, AnyLive, NodeSet, Complete, AttemptPods, Played, Current, Ready;
    var t := Claimed(plan, s, u);
    var attempt := Current(plan, s.results, u);
    if !Complete(s.pods, u, attempt) {
      GateKeepsStamps(plan, env, t, u);
    } else if plan.tests[u.test].scope.PairScope? {
      CompleteHas(s.pods, u, attempt);
      PairKeepsStamps(plan, env, t, u);
    } else {
      GroupKeepsStamps(plan, env, t, u);
    }
  }

  lemma CompleteHas(pods: map<PodId, Pod>, u: Unit, attempt: int)
    requires Complete(pods, u, attempt) && |u.nodes| == 2
    ensures forall rank: nat :: rank < 2 ==> RankId(u, rank, attempt) in pods
  {
  }

  lemma FinishedStamps(plan: Plan, env: Env, s: Sweep, u: Unit, parsed: Parsed)
    requires u.test < |plan.tests|
    ensures Finished(plan, env, s, u, parsed).stamped == s.stamped
  {
    hide Step;
  }

  lemma WatchedStamps(plan: Plan, env: Env, s: Sweep, u: Unit, id: PodId)
    requires u.test < |plan.tests|
    ensures Watched(plan, env, s, u, id).stamped == s.stamped
    ensures Played(plan, env, s, u, Begin).stamped == s.stamped
  {
    hide Step;
  }

  lemma {:induction false} RestStamps(plan: Plan, env: Env, s: Sweep, u: Unit, attempt: int, rank: nat)
    requires u.test < |plan.tests|
    ensures CreateRest(plan, env, s, u, attempt, rank).stamped == s.stamped
    decreases |u.nodes| - rank
  {
    hide Finished;
    FinishedStamps(plan, env, s, u, MACHINERY_ERROR);
    if rank < |u.nodes| {
      RestStamps(plan, env, s, u, attempt, rank + 1);
      RestStamps(plan, env, s.(pods := s.pods[RankId(u, rank, attempt) := NEW_POD]), u, attempt, rank + 1);
    }
  }

  lemma GateKeepsStamps(plan: Plan, env: Env, s: Sweep, u: Unit)
    requires u.test < |plan.tests| && RankId(u, 0, Current(plan, s.results, u)) in s.pods
    ensures GateUnit(plan, env, s, u).stamped == s.stamped
  {
    hide Finished, CreateRest, CombinePair, AttemptPods, Played, Current;
    var n := Current(plan, s.results, u);
    var id := RankId(u, 0, n);
    var kill := s.(kill := s.kill + AttemptPods(s.pods, u, n));
    FinishedStamps(plan, env, s, u, CombinePair(plan.tests[u.test].test, Some(env.report(id).parsed), None, env.report(id).logLost));
    FinishedStamps(plan, env, kill, u, env.collective(u));
    FinishedStamps(plan, env, kill, u, MACHINERY_ERROR);
    WatchedStamps(plan, env, s, u, id);
    RestStamps(plan, env, Played(plan, env, s, u, Begin), u, n, 1);
  }

  lemma PairKeepsStamps(plan: Plan, env: Env, s: Sweep, u: Unit)
    requires u.test < |plan.tests|
    requires forall rank: nat :: rank < 2 ==> RankId(u, rank, Current(plan, s.results, u)) in s.pods
    ensures HarvestPair(plan, env, s, u).stamped == s.stamped
  {
    hide Finished, Watched, CombinePair, Current;
    var n := Current(plan, s.results, u);
    var server, client := RankId(u, 0, n), RankId(u, 1, n);
    var test := plan.tests[u.test].test;
    var h, g := env.report(client), env.report(server);
    FinishedStamps(plan, env, s.(kill := s.kill + {server, client}), u, MACHINERY_ERROR);
    WatchedStamps(plan, env, s, u, client);
    FinishedStamps(plan, env, s, u, CombinePair(test, Some(g.parsed), Some(h.parsed), h.logLost || g.logLost));
    FinishedStamps(plan, env, s.(kill := s.kill + {server}), u, CombinePair(test, None, Some(h.parsed), h.logLost));
  }

  lemma GroupKeepsStamps(plan: Plan, env: Env, s: Sweep, u: Unit)
    requires u.test < |plan.tests|
    ensures HarvestGroup(plan, env, s, u).stamped == s.stamped
  {
    hide Finished, Watched, Current;
    var n := Current(plan, s.results, u);
    FinishedStamps(plan, env, s.(kill := s.kill + AttemptPods(s.pods, u, n)), u, MACHINERY_ERROR);
    WatchedStamps(plan, env, s, u, RankId(u, 0, n));
    FinishedStamps(plan, env, s, u, env.collective(u));
    hide AttemptPods;
  }
}
