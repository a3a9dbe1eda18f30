/** The sweep as the operator runs it: loops over tests, units and ranks that update the run in place. */
module Sweeper {
  import opened Base
  import opened Verdict
  import opened Soak
  import opened Attempts
  import opened AttemptHistory
  import opened Execution
  import opened RunProtocol

  class Reconciler {
    const plan: Plan
    const env: Env
    var results: map<Unit, Result>
    var pods: map<PodId, Pod>
    var busy: set<string>
    var stamped: set<string>
    var kill: set<PodId>
    var running: bool
    var pending: bool
    var harvested: bool
    var ok: bool
    ghost var log: map<Unit, seq<Event>>

    ghost function View(): Sweep
      reads this
    {
      Sweep(results, pods, busy, stamped, kill, running, pending, harvested, ok, log)
    }

    constructor (plan: Plan, env: Env, results: map<Unit, Result>, pods: map<PodId, Pod>, stamped: set<string>)
      ensures this.plan == plan && this.env == env
      ensures View() == Seeded(results, pods, stamped)
    {
      this.plan, this.env := plan, env;
      this.results, this.pods, this.stamped := results, pods, stamped;
      busy := LiveNodes(pods) + Holding(results);
      kill := {};
      running, pending, harvested, ok := false, false, false, true;
      log := map[];
    }

    method Play(u: Unit, e: Event)
      requires u.test < |plan.tests|
      modifies this
      ensures View() == Played(plan, env, old(View()), u, e)
    {
      var r := if u in results then results[u] else New(plan.tests[u.test].test);
      results := results[u := Step(plan.rules, plan.tests[u.test].test, r, e)];
      log := log[u := Logged(log, u) + [e]];
    }

    method Complete(u: Unit, parsed: Parsed)
      requires u.test < |plan.tests|
      modifies this
      ensures View() == Finished(plan, env, old(View()), u, parsed)
    {
      Play(u, Finish(parsed, env.limit));
      harvested := true;
    }

    method Watch(u: Unit, id: PodId)
      requires u.test < |plan.tests|
      modifies this
      ensures View() == Watched(plan, env, old(View()), u, id)
    {
      Play(u, Begin);
      var sample := env.sample(id);
      if sample.Some? {
        Play(u, Sample(env.now, sample.value));
      }
      running := true;
    }

    // -------------------------------------------------------------- one node

    method AdvanceNode(u: Unit)
      requires u.test < |plan.tests| && |u.nodes| == 1
      modifies this
      ensures View() == Execution.AdvanceNode(plan, env, old(View()), u)
    {
      hide Finished, Watched, LogRule;
      var node := u.nodes[0];
      var id := PodId(u, 0, Current(plan, results, u));
      if id !in pods {
        if !env.launch || (node !in busy && |busy| >= env.cap) {
          pending := true;
          return;
        }
        if !env.builds(id) {
          Complete(u, MACHINERY_ERROR);
          return;
        }
        if !env.cordons(node) {
          ok := false;
          return;
        }
        stamped := stamped + ({node} * env.claimable);
        if !env.creates(id) {
          ok := false;
          return;
        }
        pods := pods[id := NEW_POD];
        busy := busy + {node};
        running := true;
        return;
      }
      WatchNode(u, id);
    }

    method WatchNode(u: Unit, id: PodId)
      requires u.test < |plan.tests| && |u.nodes| == 1 && id in pods
      modifies this
      ensures View() == Execution.WatchNode(plan, env, old(View()), u, id, old(pods)[id])
    {
      hide Finished, Watched, LogRule;
      var pod := pods[id];
      if pod.Live() {
        busy := busy + {u.nodes[0]};
      }
      if !pod.Ended() {
        if env.overdue(id) {
          kill := kill + {id};
          Complete(u, MACHINERY_ERROR);
        } else if !pod.Started() {
          running := true;
        } else {
          Watch(u, id);
        }
        return;
      }
      Complete(u, LogRule(plan.tests[u.test].test, env.report(id)));
    }

    // -------------------------------------------------------------- pairs and groups

    /** cordonWave: in order, stopping at the first node that cannot be held. */
    method CordonWave(nodes: seq<string>) returns (held: bool)
      modifies this`stamped
      ensures stamped == StampWave(env, old(stamped), nodes)
      ensures held == AllCordon(env, nodes)
    {
      for k := 0 to |nodes|
        invariant StampWave(env, stamped, nodes[k..]) == StampWave(env, old(stamped), nodes)
        invariant AllCordon(env, nodes[..k])
      {
        if !env.cordons(nodes[k]) {
          return false;
        }
        stamped := stamped + ({nodes[k]} * env.claimable);
        assert nodes[k..][1..] == nodes[k + 1..];
      }
      assert nodes[..|nodes|] == nodes;
      return true;
    }

    method StartUnit(u: Unit)
      requires u.test < |plan.tests|
      modifies this
      ensures View() == Execution.StartUnit(plan, env, old(View()), u)
    {
      hide Finished, StampWave, AllCordon, NodeSet;
      var id := RankId(u, 0, Current(plan, results, u));
      if !env.launch || |busy + NodeSet(u)| > env.cap {
        pending := true;
        return;
      }
      if !env.builds(id) {
        Complete(u, MACHINERY_ERROR);
        return;
      }
      var held := CordonWave(u.nodes);
      if !held || !env.creates(id) {
        ok := false;
        return;
      }
      pods := pods[id := NEW_POD];
      busy := busy + NodeSet(u);
      running := true;
    }

    /** The other ranks, together, once the first is Ready. */
    method CreateRest(u: Unit, attempt: int)
      requires u.test < |plan.tests|
      modifies this
      ensures View() == Execution.CreateRest(plan, env, old(View()), u, attempt, 1)
    {
      hide Finished;
      var rank := 1;
      while rank < |u.nodes|
        invariant rank >= 1
        invariant Execution.CreateRest(plan, env, View(), u, attempt, rank) == Execution.CreateRest(plan, env, old(View()), u, attempt, 1)
      {
        var id := RankId(u, rank, attempt);
        if id !in pods {
          if !env.builds(id) {
            Complete(u, MACHINERY_ERROR);
            return;
          }
          if !env.creates(id) {
            ok := false;
            return;
          }
          pods := pods[id := NEW_POD];
        }
        rank := rank + 1;
      }
      running := true;
    }

    method GateUnit(u: Unit)
      requires u.test < |plan.tests| && RankId(u, 0, Current(plan, results, u)) in pods
      modifies this
      ensures View() == Execution.GateUnit(plan, env, old(View()), u)
    {
      hide Finished, Played, Execution.CreateRest, CombinePair, AttemptPods, Current;
      var attempt := Current(plan, results, u);
      var id := RankId(u, 0, attempt);
      var root := pods[id];
      var t := plan.tests[u.test];
      if root.Ended() {
        if t.scope.PairScope? {
          Complete(u, CombinePair(t.test, Some(env.report(id).parsed), None, env.report(id).logLost));
        } else {
          kill := kill + AttemptPods(pods, u, attempt);
          Complete(u, env.collective(u));
        }
        return;
      }
      if env.overdue(id) {
        kill := kill + AttemptPods(pods, u, attempt);
        Complete(u, MACHINERY_ERROR);
        return;
      }
      if !root.Started() {
        running := true;
        return;
      }
      Play(u, Begin);
      if !root.Ready() {
        running := true;
      } else if !env.launch {
        pending := true;
      } else {
        CreateRest(u, attempt);
      }
    }

    method HarvestPair(u: Unit)
      requires u.test < |plan.tests|
      requires forall rank: nat :: rank < 2 ==> RankId(u, rank, Current(plan, results, u)) in pods
      modifies this
      ensures View() == Execution.HarvestPair(plan, env, old(View()), u)
    {
      hide Finished, Watched, CombinePair, Current;
      var attempt := Current(plan, results, u);
      var server, client := RankId(u, 0, attempt), RankId(u, 1, attempt);
      var test := plan.tests[u.test].test;
      if !pods[client].Ended() {
        if env.overdue(client) {
          kill := kill + {server, client};
          Complete(u, MACHINERY_ERROR);
        } else {
          Watch(u, client);
        }
        return;
      }
      var h := env.report(client);
      if pods[server].Ended() {
        var g := env.report(server);
        Complete(u, CombinePair(test, Some(g.parsed), Some(h.parsed), h.logLost || g.logLost));
      } else {
        kill := kill + {server};
        Complete(u, CombinePair(test, None, Some(h.parsed), h.logLost));
      }
    }

    /** Walk the ranks: is any still running, any past its window, any alive? */
    method Ranks(u: Unit, attempt: int) returns (unfinished: bool, overdue: bool, live: bool)
      ensures unfinished <==> exists id :: id in AttemptPods(pods, u, attempt) && !pods[id].Ended()
      ensures overdue <==> exists id :: id in AttemptPods(pods, u, attempt) && env.overdue(id)
      ensures live <==> AnyLive(pods, u, attempt)
    {
      unfinished, overdue, live := false, false, false;
      ghost var seen: set<PodId> := {};
      for rank := 0 to |u.nodes|
        invariant seen == set id | id in AttemptPods(pods, u, attempt) && id.rank < rank
        invariant unfinished <==> exists id :: id in seen && !pods[id].Ended()
        invariant overdue <==> exists id :: id in seen && env.overdue(id)
        invariant live <==> exists id :: id in seen && pods[id].Live()
      {
        var id := RankId(u, rank, attempt);
        if id in pods {
          unfinished := unfinished || !pods[id].Ended();
          overdue := overdue || env.overdue(id);
          live := live || pods[id].Live();
          seen := seen + {id};
          assert id in AttemptPods(pods, u, attempt);
        }
        assert seen == set x | x in AttemptPods(pods, u, attempt) && x.rank < rank + 1 by {
          forall x | x in AttemptPods(pods, u, attempt) && x.rank < rank + 1 ensures x in seen {
            assert x.rank < rank || x == id;
          }
        }
      }
      assert seen == AttemptPods(pods, u, attempt);
    }

    method HarvestGroup(u: Unit)
      requires u.test < |plan.tests|
      modifies this
      ensures View() == Execution.HarvestGroup(plan, env, old(View()), u)
    {
      var attempt := Current(plan, results, u);
      var unfinished, overdue, _ := Ranks(u, attempt);
      hide Finished, Watched, AttemptPods, Current;
      if unfinished {
        if overdue {
          kill := kill + AttemptPods(pods, u, attempt);
          Complete(u, MACHINERY_ERROR);
        } else {
          Watch(u, RankId(u, 0, attempt));
        }
        return;
      }
      Complete(u, env.collective(u));
    }

    method AdvanceGang(u: Unit)
      requires u.test < |plan.tests| && |u.nodes| >= 2
      requires plan.tests[u.test].scope.PairScope? ==> |u.nodes| == 2
      modifies this
      ensures View() == Execution.AdvanceGang(plan, env, old(View()), u)
    {
      hide Execution.StartUnit, Execution.GateUnit, Execution.HarvestPair, Execution.HarvestGroup, Current, AnyLive, NodeSet;
      var attempt := Current(plan, results, u);
      var _, _, live := Ranks(u, attempt);
      if live {
        busy := busy + NodeSet(u);
      }
      if RankId(u, 0, attempt) !in pods {
        StartUnit(u);
      } else if !Execution.Complete(pods, u, attempt) {
        GateUnit(u);
      } else if plan.tests[u.test].scope.PairScope? {
        HarvestPair(u);
      } else {
        HarvestGroup(u);
      }
    }

    // -------------------------------------------------------------- the sweep

    method Advance(u: Unit)
      requires UnitOk(plan, u)
      modifies this
      ensures View() == Execution.Advance(plan, env, old(View()), u)
    {
      if Over(results, u) {
        return;
      }
      if plan.tests[u.test].scope.PairScope? || plan.tests[u.test].scope.GroupScope? {
        AdvanceGang(u);
      } else {
        AdvanceNode(u);
      }
    }

    method AdvanceAll(units: seq<Unit>)
      requires forall k :: 0 <= k < |units| ==> UnitOk(plan, units[k])
      modifies this
      ensures View() == SweepUnits(plan, env, old(View()), units)
    {
      hide Execution.Advance, UnitOk;
      var k := 0;
      while k < |units| && ok
        invariant 0 <= k <= |units|
        invariant SweepUnits(plan, env, View(), units[k..]) == SweepUnits(plan, env, old(View()), units)
      {
        assert units[k..][0] == units[k] && units[k..][1..] == units[k + 1..];
        Advance(units[k]);
        k := k + 1;
      }
    }

    method Execute()
      requires PlanOk(plan)
      modifies this
      ensures View() == SweepTests(plan, env, old(View()), 0)
    {
      hide SweepUnits, RequiredPhase;
      var i := 0;
      while i < |plan.tests|
        invariant 0 <= i <= |plan.tests|
        invariant SweepTests(plan, env, View(), i) == SweepTests(plan, env, old(View()), 0)
      {
        if plan.failFast && RequiredPhase(plan, results, Failed) {
          break;
        }
        if plan.tests[i].scope.OtherScope? {
          if Unit(i, []) !in results {
            results := results[Unit(i, []) := Cut(New(plan.tests[i].test))];
          }
        } else {
          UnitsOk(plan, i);
          AdvanceAll(Units(plan, i));
          if running || pending || harvested || !ok {
            break;
          }
        }
        i := i + 1;
      }
    }

    method SettleUnits(units: seq<Unit>, phase: Phase, ghost was: map<Unit, Result>, ghost before: set<Unit>)
      requires phase.Terminal() && forall u :: u in before || u in units ==> u.test < |plan.tests|
      requires results == Partly(plan, was, before, phase)
      modifies this`results
      ensures results == Partly(plan, was, before + (set u | u in units), phase)
    {
      ghost var done := before;
      for k := 0 to |units|
        invariant done == before + (set u | u in units[..k])
        invariant results == Partly(plan, was, done, phase)
      {
        hide Partly;
        assert units[k] in units;
        PartlyStep(plan, was, done, phase, units[k]);
        var r := Stopped(Get(plan, results, units[k]), phase);
        results := results[units[k] := r];
        done := done + {units[k]};
        assert units[..k + 1] == units[..k] + [units[k]];
      }
      assert units[..|units|] == units;
    }

    /** settleRemaining: every verdict still owed is settled as stopped; none that was given is touched. */
    method SettleRemaining(phase: Phase)
      requires PlanOk(plan) && (phase.Cancelled? || phase.Error?)
      modifies this`results
      ensures results == RunProtocol.SettleRemaining(plan, old(results), phase)
    {
      hide Partly, OwedBefore, Units, RunProtocol.SettleRemaining;
      ghost var was := results;
      EndsOfSettling(plan, was, phase);
      for i := 0 to |plan.tests|
        invariant results == Partly(plan, was, OwedBefore(plan, was, i), phase)
      {
        UnknownUntouched(plan, was, phase, i);
        OwedStep(plan, was, i);
        if Unit(i, []) !in results {
          SettleUnits(Units(plan, i), phase, was, OwedBefore(plan, was, i));
        }
      }
    }
  }

  /** The units of the first tests that settling walks. */
  ghost function OwedBefore(plan: Plan, results: map<Unit, Result>, n: nat): (us: set<Unit>)
    requires n <= |plan.tests|
    ensures forall u :: u in us ==> u.test < n
  {
    set i, k | 0 <= i < n && Unit(i, []) !in results && 0 <= k < |Units(plan, i)| :: Units(plan, i)[k]
  }

  ghost function Partly(plan: Plan, was: map<Unit, Result>, done: set<Unit>, phase: Phase): map<Unit, Result>
    requires forall u :: u in done ==> u.test < |plan.tests|
  {
    map u | u in was.Keys + done :: if u in done then Stopped(Get(plan, was, u), phase) else was[u]
  }

  lemma PartlyStep(plan: Plan, was: map<Unit, Result>, done: set<Unit>, phase: Phase, u: Unit)
    requires (forall v :: v in done ==> v.test < |plan.tests|) && u.test < |plan.tests| && phase.Terminal()
    ensures Partly(plan, was, done + {u}, phase)
         == Partly(plan, was, done, phase)[u := Stopped(Get(plan, Partly(plan, was, done, phase), u), phase)]
  {
    hide New;
  }

  lemma EndsOfSettling(plan: Plan, was: map<Unit, Result>, phase: Phase)
    ensures Partly(plan, was, OwedBefore(plan, was, 0), phase) == was
    ensures Partly(plan, was, OwedBefore(plan, was, |plan.tests|), phase) == RunProtocol.SettleRemaining(plan, was, phase)
  {
    assert OwedBefore(plan, was, 0) == {};
    assert OwedBefore(plan, was, |plan.tests|) == Owed(plan, was);
    hide Owed, OwedBefore;
  }

  lemma OwedStep(plan: Plan, was: map<Unit, Result>, i: nat)
    requires i < |plan.tests|
    ensures forall u :: u in Units(plan, i) ==> u.test == i
    ensures OwedBefore(plan, was, i + 1)
         == if Unit(i, []) in was then OwedBefore(plan, was, i) else OwedBefore(plan, was, i) + set u | u in Units(plan, i)
  {
    var units := Units(plan, i);
    forall u | u in units ensures u.test == i {
      var k :| 0 <= k < |units| && units[k] == u;
    }
    forall u | u in OwedBefore(plan, was, i + 1) && u !in OwedBefore(plan, was, i) ensures u in units && Unit(i, []) !in was {
      var j, k :| 0 <= j < i + 1 && Unit(j, []) !in was && 0 <= k < |Units(plan, j)| && Units(plan, j)[k] == u;
    }
    forall u | u in OwedBefore(plan, was, i) ensures u in OwedBefore(plan, was, i + 1) {
      var j, k :| 0 <= j < i && Unit(j, []) !in was && 0 <= k < |Units(plan, j)| && Units(plan, j)[k] == u;
    }
  }

  /** Settling earlier tests adds no result of this one. */
  lemma UnknownUntouched(plan: Plan, was: map<Unit, Result>, phase: Phase, i: nat)
    requires i < |plan.tests|
    ensures Unit(i, []) in Partly(plan, was, OwedBefore(plan, was, i), phase) <==> Unit(i, []) in was
  {
  }
}
