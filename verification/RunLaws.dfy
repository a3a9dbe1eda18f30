/** What holds over every life of a run: passes, crashes, deletions and all. */
module RunLaws {
  import opened Base
  import opened Attempts
  import opened AttemptHistory
  import opened AttemptVerdict
  import opened Execution
  import opened ExecutionFacts
  import opened SweepFacts
  import opened Interlock
  import opened SweepOutcome
  import opened RunProtocol
  import opened RunInvariant

  lemma {:induction false} TraceKeeps(plan: Plan, st: State, trace: seq<Action>)
    requires PlanOk(plan) && Inv(plan, st) && Possible(plan, st, trace)
    ensures Inv(plan, RunProtocol.After(plan, st, trace))
    decreases |trace|
  {
    if trace != [] {
      hide Inv, Enabled, Apply;
      RunInvariant.StepKeeps(plan, st, trace[0]);
      TraceKeeps(plan, Apply(plan, st, trace[0]), trace[1..]);
    }
  }

  lemma BegunInv(plan: Plan, existing: set<string>)
    ensures Inv(plan, Begun(existing))
  {
  }

  lemma ReachableInv(plan: Plan, existing: set<string>, trace: seq<Action>)
    requires PlanOk(plan) && Possible(plan, Begun(existing), trace)
    ensures Inv(plan, RunProtocol.After(plan, Begun(existing), trace))
  {
    BegunInv(plan, existing);
    TraceKeeps(plan, Begun(existing), trace);
  }

  // ---------------------------------------------------------------- acceptance

  /** A run that ends Passed holds, for every verdict a required test owes, a skip or a pass that was earned. */
  lemma PassedIsEarned(plan: Plan, existing: set<string>, trace: seq<Action>)
    requires PlanOk(plan) && Possible(plan, Begun(existing), trace)
    ensures var st := RunProtocol.After(plan, Begun(existing), trace);
            st.phase.Passed? ==> Accepted(plan, st.results)
  {
    ReachableInv(plan, existing, trace);
  }

  // ---------------------------------------------------------------- killing

  /** While a run is being stepped, every pod it killed belongs to an attempt already on the durable record. */
  lemma KilledIsRecorded(plan: Plan, existing: set<string>, trace: seq<Action>)
    requires PlanOk(plan) && Possible(plan, Begun(existing), trace)
    ensures var st := RunProtocol.After(plan, Begun(existing), trace);
            Stepping(st) ==> forall id :: id in st.killed ==>
              UnitOk(plan, id.unit) && id.unit in st.results && id.attempt < Current(plan, st.results, id.unit)
  {
    ReachableInv(plan, existing, trace);
  }

  /** Two pod lists that agree on one attempt of one unit. */
  ghost predicate SameView(p: map<PodId, Pod>, q: map<PodId, Pod>, u: Unit, attempt: int) {
    && (forall rank: nat :: RankId(u, rank, attempt) in p <==> RankId(u, rank, attempt) in q)
    && (forall rank: nat :: RankId(u, rank, attempt) in p ==> p[RankId(u, rank, attempt)] == q[RankId(u, rank, attempt)])
  }

  lemma SameAt(p: map<PodId, Pod>, q: map<PodId, Pod>, u: Unit, attempt: int, rank: nat)
    requires SameView(p, q, u, attempt)
    ensures var id := RankId(u, rank, attempt);
            (id in p <==> id in q) && (id in p ==> p[id] == q[id])
  {
  }

  lemma AttemptPodsSame(p: map<PodId, Pod>, q: map<PodId, Pod>, u: Unit, attempt: int)
    requires SameView(p, q, u, attempt)
    ensures AttemptPods(p, u, attempt) == AttemptPods(q, u, attempt)
    ensures AnyLive(p, u, attempt) == AnyLive(q, u, attempt)
    ensures Complete(p, u, attempt) == Complete(q, u, attempt)
    ensures (exists id :: id in AttemptPods(p, u, attempt) && !p[id].Ended())
       <==> (exists id :: id in AttemptPods(q, u, attempt) && !q[id].Ended())
  {
    forall id ensures id in AttemptPods(p, u, attempt) <==> id in AttemptPods(q, u, attempt) {
      assert id == RankId(id.unit, id.rank, id.attempt);
    }
    forall id | id in AttemptPods(p, u, attempt) ensures p[id] == q[id] {
      assert id == RankId(u, id.rank, attempt);
    }
  }

  lemma FinishedSame(plan: Plan, env: Env, s: Sweep, q: map<PodId, Pod>, u: Unit, parsed: Parsed)
    requires u.test < |plan.tests|
    ensures Finished(plan, env, s.(pods := q), u, parsed) == Finished(plan, env, s, u, parsed).(pods := q)
  {
    hide Step;
  }

  lemma WatchedSame(plan: Plan, env: Env, s: Sweep, q: map<PodId, Pod>, u: Unit, id: PodId)
    requires u.test < |plan.tests|
    ensures Watched(plan, env, s.(pods := q), u, id) == Watched(plan, env, s, u, id).(pods := q)
  {
    hide Step;
  }

  lemma {:induction false} RestSame(plan: Plan, env: Env, s: Sweep, q: map<PodId, Pod>, u: Unit, attempt: int, rank: nat)
    requires u.test < |plan.tests| && SameView(s.pods, q, u, attempt)
    ensures CreateRest(plan, env, s.(pods := q), u, attempt, rank).results == CreateRest(plan, env, s, u, attempt, rank).results
    decreases |u.nodes| - rank
  {
    hide Finished;
    if rank < |u.nodes| {
      var id := RankId(u, rank, attempt);
      if id in s.pods {
        RestSame(plan, env, s, q, u, attempt, rank + 1);
      } else if !env.builds(id) {
        FinishedSame(plan, env, s, q, u, MACHINERY_ERROR);
      } else if env.creates(id) {
        RestSame(plan, env, s.(pods := s.pods[id := NEW_POD]), q[id := NEW_POD], u, attempt, rank + 1);
      }
    }
  }

  lemma GateSame(plan: Plan, env: Env, s: Sweep, q: map<PodId, Pod>, u: Unit)
    requires u.test < |plan.tests| && SameView(s.pods, q, u, Current(plan, s.results, u))
    requires RankId(u, 0, Current(plan, s.results, u)) in s.pods && RankId(u, 0, Current(plan, s.results, u)) in q
    ensures GateUnit(plan, env, s.(pods := q), u).results == GateUnit(plan, env, s, u).results
  {
    hide SameView, Finished, CreateRest, CombinePair, Current, AttemptPods, Played;
    var n := Current(plan, s.results, u);
    var id := RankId(u, 0, n);
    SameAt(s.pods, q, u, n, 0);
    AttemptPodsSame(s.pods, q, u, n);
    var s1 := s.(kill := s.kill + AttemptPods(s.pods, u, n));
    if s.pods[id].Ended() {
      FinishedSame(plan, env, s, q, u, CombinePair(plan.tests[u.test].test, Some(env.report(id).parsed), None, env.report(id).logLost));
      FinishedSame(plan, env, s1, q, u, env.collective(u));
    } else if env.overdue(id) {
      FinishedSame(plan, env, s1, q, u, MACHINERY_ERROR);
    } else {
      var begun := Played(plan, env, s, u, Begin);
      BegunSame(plan, env, s, q, u);
      RestSame(plan, env, begun, q, u, n, 1);
    }
  }

  lemma BegunSame(plan: Plan, env: Env, s: Sweep, q: map<PodId, Pod>, u: Unit)
    requires u.test < |plan.tests|
    ensures Played(plan, env, s.(pods := q), u, Begin) == Played(plan, env, s, u, Begin).(pods := q)
    ensures Played(plan, env, s, u, Begin).pods == s.pods
  {
    hide Step;
  }

  lemma PairSame(plan: Plan, env: Env, s: Sweep, q: map<PodId, Pod>, u: Unit)
    requires u.test < |plan.tests| && SameView(s.pods, q, u, Current(plan, s.results, u))
    requires forall rank: nat :: rank < 2 ==> RankId(u, rank, Current(plan, s.results, u)) in s.pods
    ensures forall rank: nat :: rank < 2 ==> RankId(u, rank, Current(plan, s.results, u)) in q
    ensures HarvestPair(plan, env, s.(pods := q), u).results == HarvestPair(plan, env, s, u).results
  {
    hide Finished, Watched, CombinePair, Current;
    var n := Current(plan, s.results, u);
    var server, client := RankId(u, 0, n), RankId(u, 1, n);
    SameAt(s.pods, q, u, n, 0);
    SameAt(s.pods, q, u, n, 1);
    hide SameView;
    var test := plan.tests[u.test].test;
    var h, g := env.report(client), env.report(server);
    FinishedSame(plan, env, s.(kill := s.kill + {server, client}), q, u, MACHINERY_ERROR);
    WatchedSame(plan, env, s, q, u, client);
    FinishedSame(plan, env, s, q, u, CombinePair(test, Some(g.parsed), Some(h.parsed), h.logLost || g.logLost));
    FinishedSame(plan, env, s.(kill := s.kill + {server}), q, u, CombinePair(test, None, Some(h.parsed), h.logLost));
  }

  lemma GroupSame(plan: Plan, env: Env, s: Sweep, q: map<PodId, Pod>, u: Unit)
    requires u.test < |plan.tests| && SameView(s.pods, q, u, Current(plan, s.results, u))
    ensures HarvestGroup(plan, env, s.(pods := q), u).results == HarvestGroup(plan, env, s, u).results
  {
    hide Finished, Watched, Current, SameView;
    var n := Current(plan, s.results, u);
    AttemptPodsSame(s.pods, q, u, n);
    var pods := AttemptPods(s.pods, u, n);
    FinishedSame(plan, env, s.(kill := s.kill + pods), q, u, MACHINERY_ERROR);
    WatchedSame(plan, env, s, q, u, RankId(u, 0, n));
    FinishedSame(plan, env, s, q, u, env.collective(u));
    hide AttemptPods;
  }

  lemma StartSame(plan: Plan, env: Env, s: Sweep, q: map<PodId, Pod>, u: Unit)
    requires u.test < |plan.tests|
    ensures StartUnit(plan, env, s.(pods := q), u).results == StartUnit(plan, env, s, u).results
  {
    hide Finished, LaunchUnit, Current, NodeSet;
    FinishedSame(plan, env, s, q, u, MACHINERY_ERROR);
  }

  lemma GangSame(plan: Plan, env: Env, s: Sweep, q: map<PodId, Pod>, u: Unit)
    requires UnitOk(plan, u) && Gang(plan, u.test) && SameView(s.pods, q, u, Current(plan, s.results, u))
    ensures AdvanceGang(plan, env, s.(pods := q), u).results == AdvanceGang(plan, env, s, u).results
  {
    hide SameView, AttemptPods, AnyLive, GateUnit, HarvestPair, HarvestGroup, StartUnit, Complete, Current, NodeSet;
    ClaimedKeeps(plan, s, u);
    var n := Current(plan, s.results, u);
    AttemptPodsSame(s.pods, q, u, n);
    SameAt(s.pods, q, u, n, 0);
    var s1 := Claimed(plan, s, u);
    if RankId(u, 0, n) !in s.pods {
      StartSame(plan, env, s1, q, u);
    } else if !Complete(s.pods, u, n) {
      GateSame(plan, env, s1, q, u);
    } else if plan.tests[u.test].scope.PairScope? {
      CompletePair(s.pods, u, n);
      CompletePair(q, u, n);
      PairSame(plan, env, s1, q, u);
    } else {
      GroupSame(plan, env, s1, q, u);
    }
  }

  lemma CompletePair(pods: map<PodId, Pod>, u: Unit, attempt: int)
    requires Complete(pods, u, attempt) && |u.nodes| == 2
    ensures forall rank: nat :: rank < 2 ==> RankId(u, rank, attempt) in pods
  {
  }

  lemma NodeSame(plan: Plan, env: Env, s: Sweep, q: map<PodId, Pod>, u: Unit)
    requires u.test < |plan.tests| && |u.nodes| == 1 && SameView(s.pods, q, u, Current(plan, s.results, u))
    ensures AdvanceNode(plan, env, s.(pods := q), u).results == AdvanceNode(plan, env, s, u).results
  {
    hide SameView, StartNode, WatchNode, Current;
    var n := Current(plan, s.results, u);
    var id := RankId(u, 0, n);
    SameAt(s.pods, q, u, n, 0);
    if id in s.pods { WatchNodeSame(plan, env, s, q, u, id, s.pods[id]); } else { StartNodeSame(plan, env, s, q, u, id); }
  }

  lemma StartNodeResults(plan: Plan, env: Env, s: Sweep, u: Unit, id: PodId)
    requires u.test < |plan.tests| && |u.nodes| == 1
    ensures StartNode(plan, env, s, u, id).results
         == if env.launch && (u.nodes[0] in s.busy || |s.busy| < env.cap) && !env.builds(id)
            then Finished(plan, env, s, u, MACHINERY_ERROR).results else s.results
  {
    hide Finished, LaunchNode;
  }

  lemma StartNodeSame(plan: Plan, env: Env, s: Sweep, q: map<PodId, Pod>, u: Unit, id: PodId)
    requires u.test < |plan.tests| && |u.nodes| == 1
    ensures StartNode(plan, env, s.(pods := q), u, id).results == StartNode(plan, env, s, u, id).results
  {
    hide Finished, StartNode;
    StartNodeResults(plan, env, s, u, id);
    StartNodeResults(plan, env, s.(pods := q), u, id);
    FinishedSame(plan, env, s, q, u, MACHINERY_ERROR);
  }

  lemma WatchNodeSame(plan: Plan, env: Env, s: Sweep, q: map<PodId, Pod>, u: Unit, id: PodId, pod: Pod)
    requires u.test < |plan.tests| && |u.nodes| == 1
    ensures WatchNode(plan, env, s.(pods := q), u, id, pod).results == WatchNode(plan, env, s, u, id, pod).results
  {
    hide Finished, Watched, LogRule;
    var s1 := if pod.Live() then s.(busy := s.busy + {u.nodes[0]}) else s;
    FinishedSame(plan, env, s1, q, u, LogRule(plan.tests[u.test].test, env.report(id)));
    FinishedSame(plan, env, s1.(kill := s1.kill + {id}), q, u, MACHINERY_ERROR);
    WatchedSame(plan, env, s1, q, u, id);
  }

  /** A visit reads no pod but those of the unit's current attempt: whatever a killed pod looks like, it is not harvested. */
  lemma OnlyTheCurrentAttemptIsRead(plan: Plan, env: Env, s: Sweep, u: Unit, id: PodId, pod: Pod)
    requires UnitOk(plan, u) && (id.unit != u || id.attempt != Current(plan, s.results, u))
    ensures Advance(plan, env, s.(pods := s.pods[id := pod]), u).results == Advance(plan, env, s, u).results
  {
    hide AdvanceNode, AdvanceGang, Current;
    var q := s.pods[id := pod];
    if !Over(s.results, u) {
      if Gang(plan, u.test) { GangSame(plan, env, s, q, u); } else { NodeSame(plan, env, s, q, u); }
    }
  }
}
