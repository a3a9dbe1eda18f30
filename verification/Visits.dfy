/**
  What one visit makes of an attempt: whose report ends it and with what, which pods it
  condemns, and what it waits for. Told from the pods, their reports and the events logged.
*/
module Visits {
  import opened Base
  import opened Verdict
  import opened Soak
  import opened Attempts
  import opened AttemptHistory
  import opened AttemptVerdict
  import opened Execution
  import opened ExecutionFacts

  // ---------------------------------------------------------------- whose report decides

  predicate There(pods: map<PodId, Pod>, u: Unit, rank: nat, n: int) {
    PodId(u, rank, n) in pods
  }

  /** The pod's container has terminated and left an exit to read. */
  predicate EndedAt(pods: map<PodId, Pod>, u: Unit, rank: nat, n: int) {
    && There(pods, u, rank, n)
    && var pod := pods[PodId(u, rank, n)]; pod.phase == PodFailed || (pod.phase == PodSucceeded && pod.exitRecorded)
  }

  ghost predicate AllThere(pods: map<PodId, Pod>, u: Unit, n: int) {
    forall rank: nat :: rank < |u.nodes| ==> There(pods, u, rank, n)
  }

  /** The ranks an attempt waits for: all of them, but of a complete pair the client alone, and the first until the others exist. */
  ghost predicate Deciding(plan: Plan, pods: map<PodId, Pod>, u: Unit, n: int, rank: nat)
    requires u.test < |plan.tests|
  {
    && rank < |u.nodes|
    && if AllThere(pods, u, n) then !(plan.tests[u.test].scope == PairScope && rank == 0) else rank == 0
  }

  /** The attempt has an outcome to read. */
  ghost predicate Reported(plan: Plan, pods: map<PodId, Pod>, u: Unit, n: int)
    requires u.test < |plan.tests|
  {
    There(pods, u, 0, n) && forall rank: nat :: Deciding(plan, pods, u, n, rank) ==> EndedAt(pods, u, rank, n)
  }

  /** It has none, and one of the pods waited for is past its window. */
  ghost predicate TimedOut(plan: Plan, env: Env, pods: map<PodId, Pod>, u: Unit, n: int)
    requires u.test < |plan.tests|
  {
    && There(pods, u, 0, n) && !Reported(plan, pods, u, n)
    && exists rank: nat :: Deciding(plan, pods, u, n, rank) && env.overdue(PodId(u, rank, n))
  }

  /** A pod it still needs cannot be built. */
  ghost predicate Unbuilt(env: Env, pods: map<PodId, Pod>, u: Unit, n: int) {
    env.launch && exists rank: nat :: rank < |u.nodes| && !There(pods, u, rank, n) && !env.builds(PodId(u, rank, n))
  }

  // ---------------------------------------------------------------- what it amounts to

  /** A pass nobody can check, because its log is lost and a gated metric with it, is an error. */
  predicate Uncheckable(test: Test, exit: Exit, metrics: Metrics, declared: set<string>, lost: bool) {
    lost && exit == ExitPass && exists i :: 0 <= i < |test.thresholds| && test.thresholds[i].metric !in metrics && test.thresholds[i].metric !in declared
  }

  predicate OneReport(test: Test, h: Harvest, p: Parsed) {
    && p.metrics == h.parsed.metrics && p.unmeasurable == h.parsed.unmeasurable && p.rejected == h.parsed.rejected
    && p.exit == if Uncheckable(test, h.parsed.exit, h.parsed.metrics, h.parsed.unmeasurable, h.logLost) then ExitError else h.parsed.exit
  }

  /** Of the ends that reported the graver decides, and the server alone never passes a link. */
  predicate LinkExit(server: Option<Parsed>, client: Option<Parsed>, e: Exit) {
    && (e == ExitPass <==> client.Some? && client.value.exit == ExitPass && (server.Some? ==> server.value.exit == ExitPass))
    && (e == ExitError <==> || (client.Some? && client.value.exit == ExitError) || (server.Some? && server.value.exit == ExitError)
                            || (client.None? && server.Some? && server.value.exit == ExitPass))
    && (e == ExitSkip ==> (client.Some? ==> client.value.exit != ExitFail) && (server.Some? ==> server.value.exit != ExitFail))
    && (e == ExitFail ==> (client.Some? && client.value.exit == ExitFail) || (server.Some? && server.value.exit == ExitFail))
  }

  /** The client's reading of a metric, or else the server's. */
  ghost predicate LinkMetrics(server: Option<Parsed>, client: Option<Parsed>, p: Parsed) {
    && (forall m :: m in p.metrics <==> (client.Some? && m in client.value.metrics) || (server.Some? && m in server.value.metrics))
    && (forall m :: m in p.metrics ==> p.metrics[m] == if client.Some? && m in client.value.metrics then client.value.metrics[m] else server.value.metrics[m])
    && (forall m :: m in p.unmeasurable <==>
          && m !in p.metrics
          && ((client.Some? && m in client.value.unmeasurable) || (server.Some? && m in server.value.unmeasurable)))
    && p.rejected == (if client.Some? then client.value.rejected else 0) + (if server.Some? then server.value.rejected else 0)
  }

  ghost predicate LinkReport(test: Test, server: Option<Harvest>, client: Option<Harvest>, p: Parsed) {
    var s := if server.Some? then Some(server.value.parsed) else None;
    var c := if client.Some? then Some(client.value.parsed) else None;
    var lost := (client.Some? && client.value.logLost) || (server.Some? && server.value.logLost);
    && LinkMetrics(s, c, p)
    && exists e :: LinkExit(s, c, e) && p.exit == if Uncheckable(test, e, p.metrics, p.unmeasurable, lost) then ExitError else e
  }

  function EndOf(env: Env, pods: map<PodId, Pod>, u: Unit, rank: nat, n: int): Option<Harvest> {
    if EndedAt(pods, u, rank, n) then Some(env.report(PodId(u, rank, n))) else None
  }

  /** What the ended pods of this attempt amount to. */
  ghost predicate Account(plan: Plan, env: Env, pods: map<PodId, Pod>, u: Unit, n: int, p: Parsed)
    requires u.test < |plan.tests|
  {
    match plan.tests[u.test].scope
    case PairScope => LinkReport(plan.tests[u.test].test, EndOf(env, pods, u, 0, n), EndOf(env, pods, u, 1, n), p)
    case GroupScope => p == env.collective(u)
    case _ => OneReport(plan.tests[u.test].test, env.report(PodId(u, 0, n)), p)
  }

  /** What a visit may record as the attempt's outcome. */
  ghost predicate Concludes(plan: Plan, env: Env, pods: map<PodId, Pod>, u: Unit, n: int, e: Event)
    requires u.test < |plan.tests|
  {
    && e.Finish? && e.limit == env.limit
    && if Reported(plan, pods, u, n) then Account(plan, env, pods, u, n, e.parsed)
       else (TimedOut(plan, env, pods, u, n) || Unbuilt(env, pods, u, n)) && e.parsed == Parsed(ExitError, map[], {}, 0)
  }

  // ---------------------------------------------------------------- what a visit logs

  /** One unit's log grew by these events and no other's moved. */
  ghost predicate Adds(s: Sweep, s': Sweep, u: Unit, more: seq<Event>) {
    forall v :: Logged(s'.log, v) == Logged(s.log, v) + if v == u then more else []
  }

  /** Opened, and perhaps sampled. */
  predicate Watching(env: Env, id: PodId, more: seq<Event>) {
    more == if env.sample(id).Some? then [Begin, Sample(env.now, env.sample(id).value)] else [Begin]
  }

  function Sampler(plan: Plan, u: Unit, n: int): PodId
    requires u.test < |plan.tests|
  {
    PodId(u, if plan.tests[u.test].scope == PairScope then 1 else 0, n)
  }

  predicate StartedAt(pods: map<PodId, Pod>, u: Unit, n: int) {
    There(pods, u, 0, n) && (pods[PodId(u, 0, n)].hasStart || pods[PodId(u, 0, n)].phase != PodPending)
  }

  /** No outcome yet: nothing, an opening, a sample of the pod that measures, or the error of a pod that cannot be built. */
  ghost predicate NoOutcome(plan: Plan, env: Env, pods: map<PodId, Pod>, u: Unit, n: int, more: seq<Event>)
    requires u.test < |plan.tests|
  {
    var error := Finish(Parsed(ExitError, map[], {}, 0), env.limit);
    if AllThere(pods, u, n) && (|u.nodes| >= 2 || StartedAt(pods, u, n)) then Watching(env, Sampler(plan, u, n), more)
    else if StartedAt(pods, u, n) then more == [Begin] || (Unbuilt(env, pods, u, n) && more == [Begin, error])
    else more == [] || (Unbuilt(env, pods, u, n) && more == [error])
  }

  ghost predicate VisitLogs(plan: Plan, env: Env, s: Sweep, u: Unit, s': Sweep)
    requires u.test < |plan.tests|
  {
    var n := Current(plan, s.results, u);
    exists more ::
      && Adds(s, s', u, more)
      && if Reported(plan, s.pods, u, n) || TimedOut(plan, env, s.pods, u, n)
         then |more| == 1 && Concludes(plan, env, s.pods, u, n, more[0])
         else NoOutcome(plan, env, s.pods, u, n, more)
  }

  lemma PlayedAdds(plan: Plan, env: Env, s: Sweep, u: Unit, e: Event)
    requires u.test < |plan.tests|
    ensures Adds(s, Played(plan, env, s, u, e), u, [e])
  {
    hide Step;
    forall v ensures Logged(Played(plan, env, s, u, e).log, v) == Logged(s.log, v) + if v == u then [e] else [] {
      assert Logged(s.log, v) + [] == Logged(s.log, v);
    }
  }

  lemma AddsTwice(a: Sweep, b: Sweep, c: Sweep, u: Unit, more: seq<Event>, most: seq<Event>)
    requires Adds(a, b, u, more) && Adds(b, c, u, most)
    ensures Adds(a, c, u, more + most)
  {
    hide Logged;
    forall v ensures Logged(c.log, v) == Logged(a.log, v) + if v == u then more + most else [] {
      assert Logged(b.log, v) == Logged(a.log, v) + if v == u then more else [];
      assert Logged(c.log, v) == Logged(b.log, v) + if v == u then most else [];
      if v == u { assert (Logged(a.log, v) + more) + most == Logged(a.log, v) + (more + most); }
      else { assert (Logged(a.log, v) + []) + [] == Logged(a.log, v) + []; }
    }
  }

  lemma FinishedAdds(plan: Plan, env: Env, s: Sweep, u: Unit, parsed: Parsed)
    requires u.test < |plan.tests|
    ensures Adds(s, Finished(plan, env, s, u, parsed), u, [Finish(parsed, env.limit)])
  {
    PlayedAdds(plan, env, s, u, Finish(parsed, env.limit));
    hide Played;
  }

  lemma WatchedAdds(plan: Plan, env: Env, s: Sweep, u: Unit, id: PodId) returns (more: seq<Event>)
    requires u.test < |plan.tests|
    ensures Adds(s, Watched(plan, env, s, u, id), u, more) && Watching(env, id, more)
  {
    hide Played;
    PlayedAdds(plan, env, s, u, Begin);
    more := [Begin];
    if env.sample(id).Some? {
      var begun, e := Played(plan, env, s, u, Begin), Sample(env.now, env.sample(id).value);
      PlayedAdds(plan, env, begun, u, e);
      AddsTwice(s, begun, Played(plan, env, begun, u, e), u, [Begin], [e]);
      more := [Begin, e];
      assert [Begin] + [e] == more;
    }
  }

  lemma NothingAdds(s: Sweep, s': Sweep, u: Unit)
    requires s'.log == s.log
    ensures Adds(s, s', u, [])
  {
    forall v ensures Logged(s'.log, v) == Logged(s.log, v) + if v == u then [] else [] {
      assert Logged(s.log, v) + [] == Logged(s.log, v);
    }
  }

  lemma {:induction false} RestAdds(plan: Plan, env: Env, s: Sweep, u: Unit, n: int, rank: nat) returns (more: seq<Event>)
    requires u.test < |plan.tests| && env.launch
    ensures Adds(s, CreateRest(plan, env, s, u, n, rank), u, more)
    ensures more == [] || (more == [Finish(Parsed(ExitError, map[], {}, 0), env.limit)] && Unbuilt(env, s.pods, u, n))
    decreases |u.nodes| - rank
  {
    hide Finished;
    if rank >= |u.nodes| {
      NothingAdds(s, CreateRest(plan, env, s, u, n, rank), u);
      more := [];
    } else {
      var id := RankId(u, rank, n);
      if id in s.pods {
        more := RestAdds(plan, env, s, u, n, rank + 1);
      } else if !env.builds(id) {
        FinishedAdds(plan, env, s, u, MACHINERY_ERROR);
        assert !There(s.pods, u, rank, n);
        more := [Finish(MACHINERY_ERROR, env.limit)];
      } else if !env.creates(id) {
        NothingAdds(s, CreateRest(plan, env, s, u, n, rank), u);
        more := [];
      } else {
        var t := s.(pods := s.pods[id := NEW_POD]);
        more := RestAdds(plan, env, t, u, n, rank + 1);
        assert Adds(s, CreateRest(plan, env, t, u, n, rank + 1), u, more);
      }
    }
  }

  // ---------------------------------------------------------------- the reports of each scope

  lemma SingleReads(plan: Plan, pods: map<PodId, Pod>, u: Unit, n: int)
    requires u.test < |plan.tests| && |u.nodes| == 1 && plan.tests[u.test].scope != PairScope
    ensures AllThere(pods, u, n) <==> There(pods, u, 0, n)
    ensures Reported(plan, pods, u, n) <==> EndedAt(pods, u, 0, n)
    ensures forall rank: nat :: Deciding(plan, pods, u, n, rank) <==> rank == 0
  {
  }

  /** Until every rank exists the first decides alone. */
  lemma FirstReads(plan: Plan, pods: map<PodId, Pod>, u: Unit, n: int)
    requires u.test < |plan.tests| && |u.nodes| >= 2 && !AllThere(pods, u, n)
    ensures Reported(plan, pods, u, n) <==> EndedAt(pods, u, 0, n)
    ensures forall rank: nat :: Deciding(plan, pods, u, n, rank) <==> rank == 0
  {
    assert Deciding(plan, pods, u, n, 0);
  }

  lemma ClientReads(plan: Plan, pods: map<PodId, Pod>, u: Unit, n: int)
    requires u.test < |plan.tests| && |u.nodes| == 2 && plan.tests[u.test].scope == PairScope && AllThere(pods, u, n)
    ensures There(pods, u, 0, n) && There(pods, u, 1, n)
    ensures Reported(plan, pods, u, n) <==> EndedAt(pods, u, 1, n)
    ensures forall rank: nat :: Deciding(plan, pods, u, n, rank) <==> rank == 1
  {
    assert Deciding(plan, pods, u, n, 1);
  }

  lemma RanksRead(plan: Plan, pods: map<PodId, Pod>, u: Unit, n: int)
    requires u.test < |plan.tests| && |u.nodes| >= 2 && plan.tests[u.test].scope == GroupScope && AllThere(pods, u, n)
    ensures There(pods, u, 0, n)
    ensures Reported(plan, pods, u, n) <==> forall id :: id in AttemptPods(pods, u, n) ==> pods[id].Ended()
    ensures TimedOutAmong(plan, pods, u, n)
  {
    forall id | id in AttemptPods(pods, u, n) ensures id == PodId(u, id.rank, n) && Deciding(plan, pods, u, n, id.rank) {}
    forall rank: nat | Deciding(plan, pods, u, n, rank) ensures PodId(u, rank, n) in AttemptPods(pods, u, n) {
      assert There(pods, u, rank, n);
    }
    if forall id :: id in AttemptPods(pods, u, n) ==> pods[id].Ended() {
      forall rank: nat | Deciding(plan, pods, u, n, rank) ensures EndedAt(pods, u, rank, n) {
        assert PodId(u, rank, n) in AttemptPods(pods, u, n);
      }
    }
    if Reported(plan, pods, u, n) {
      forall id | id in AttemptPods(pods, u, n) ensures pods[id].Ended() { assert EndedAt(pods, u, id.rank, n); }
    }
  }

  ghost predicate TimedOutAmong(plan: Plan, pods: map<PodId, Pod>, u: Unit, n: int)
    requires u.test < |plan.tests|
  {
    && (forall id :: id in AttemptPods(pods, u, n) ==> id == PodId(u, id.rank, n) && Deciding(plan, pods, u, n, id.rank))
    && (forall rank: nat :: Deciding(plan, pods, u, n, rank) ==> PodId(u, rank, n) in AttemptPods(pods, u, n))
  }

  lemma CombinedReports(test: Test, server: Option<Harvest>, client: Option<Harvest>, lost: bool)
    requires server.Some? || client.Some?
    requires lost <==> (client.Some? && client.value.logLost) || (server.Some? && server.value.logLost)
    ensures var s := if server.Some? then Some(server.value.parsed) else None;
            var c := if client.Some? then Some(client.value.parsed) else None;
            LinkReport(test, server, client, CombinePair(test, s, c, lost))
  {
    var s := if server.Some? then Some(server.value.parsed) else None;
    var c := if client.Some? then Some(client.value.parsed) else None;
    var p := CombinePair(test, s, c, lost);
    assert LinkMetrics(s, c, p);
    assert LinkExit(s, c, PairVerdict(ExitOf(s), ExitOf(c)));
  }

  // ---------------------------------------------------------------- every visit

  lemma LoggedEnd(plan: Plan, env: Env, s: Sweep, u: Unit, s': Sweep, e: Event)
    requires u.test < |plan.tests| && Adds(s, s', u, [e])
    requires var n := Current(plan, s.results, u);
             (Reported(plan, s.pods, u, n) || TimedOut(plan, env, s.pods, u, n)) && Concludes(plan, env, s.pods, u, n, e)
    ensures VisitLogs(plan, env, s, u, s')
  {
    hide Adds, Reported, TimedOut, Concludes, NoOutcome, Current;
    assert [e][0] == e;
  }

  lemma LoggedOn(plan: Plan, env: Env, s: Sweep, u: Unit, s': Sweep, more: seq<Event>)
    requires u.test < |plan.tests| && Adds(s, s', u, more)
    requires var n := Current(plan, s.results, u);
             !Reported(plan, s.pods, u, n) && !TimedOut(plan, env, s.pods, u, n) && NoOutcome(plan, env, s.pods, u, n, more)
    ensures VisitLogs(plan, env, s, u, s')
  {
    hide Adds, Reported, TimedOut, Concludes, NoOutcome, Current;
  }

  /** A pod waited for is past its window. */
  lemma Expires(plan: Plan, env: Env, pods: map<PodId, Pod>, u: Unit, n: int, rank: nat)
    requires u.test < |plan.tests| && There(pods, u, 0, n) && !Reported(plan, pods, u, n)
    requires Deciding(plan, pods, u, n, rank) && env.overdue(PodId(u, rank, n))
    ensures TimedOut(plan, env, pods, u, n)
    ensures Concludes(plan, env, pods, u, n, Finish(MACHINERY_ERROR, env.limit))
  {
  }

  /** The first rank alone decides and is within its window. */
  lemma Within(plan: Plan, env: Env, pods: map<PodId, Pod>, u: Unit, n: int, only: nat)
    requires u.test < |plan.tests| && (forall rank: nat :: Deciding(plan, pods, u, n, rank) <==> rank == only)
    requires !env.overdue(PodId(u, only, n))
    ensures !TimedOut(plan, env, pods, u, n)
  {
  }

  lemma SingleLogged(plan: Plan, env: Env, s: Sweep, u: Unit)
    requires u.test < |plan.tests| && |u.nodes| == 1 && plan.tests[u.test].scope == NodeScope
    ensures VisitLogs(plan, env, s, u, AdvanceNode(plan, env, s, u))
  {
    hide VisitLogs, StartNode, WatchNode, Current;
    var id := PodId(u, 0, Current(plan, s.results, u));
    if id in s.pods { SingleWatched(plan, env, s, u, id); } else { SingleStarted(plan, env, s, u, id); }
  }

  lemma SingleStarted(plan: Plan, env: Env, s: Sweep, u: Unit, id: PodId)
    requires u.test < |plan.tests| && |u.nodes| == 1 && plan.tests[u.test].scope == NodeScope
    requires id == PodId(u, 0, Current(plan, s.results, u)) && id !in s.pods
    ensures VisitLogs(plan, env, s, u, StartNode(plan, env, s, u, id))
  {
    hide Finished, Current, Adds, LaunchNode, VisitLogs;
    var n := Current(plan, s.results, u);
    SingleReads(plan, s.pods, u, n);
    var s' := StartNode(plan, env, s, u, id);
    if env.launch && (u.nodes[0] in s.busy || |s.busy| < env.cap) && !env.builds(id) {
      FinishedAdds(plan, env, s, u, MACHINERY_ERROR);
      assert Unbuilt(env, s.pods, u, n);
      LoggedOn(plan, env, s, u, s', [Finish(MACHINERY_ERROR, env.limit)]);
    } else {
      NothingAdds(s, s', u);
      LoggedOn(plan, env, s, u, s', []);
    }
  }

  lemma SingleConcludes(plan: Plan, env: Env, pods: map<PodId, Pod>, u: Unit, n: int)
    requires u.test < |plan.tests| && |u.nodes| == 1 && plan.tests[u.test].scope == NodeScope && EndedAt(pods, u, 0, n)
    ensures Reported(plan, pods, u, n)
    ensures Concludes(plan, env, pods, u, n, Finish(LogRule(plan.tests[u.test].test, env.report(PodId(u, 0, n))), env.limit))
  {
    SingleReads(plan, pods, u, n);
    OneReportRead(plan.tests[u.test].test, env.report(PodId(u, 0, n)));
    hide LogRule, OneReport;
  }

  lemma OneReportRead(test: Test, h: Harvest)
    ensures OneReport(test, h, LogRule(test, h))
  {
  }

  lemma SingleWatched(plan: Plan, env: Env, s: Sweep, u: Unit, id: PodId)
    requires u.test < |plan.tests| && |u.nodes| == 1 && plan.tests[u.test].scope == NodeScope
    requires id == PodId(u, 0, Current(plan, s.results, u)) && id in s.pods
    ensures VisitLogs(plan, env, s, u, WatchNode(plan, env, s, u, id, s.pods[id]))
  {
    hide Finished, Watched, Current, Adds, LogRule, VisitLogs, Reported, TimedOut, Concludes, Deciding;
    var n, pod := Current(plan, s.results, u), s.pods[id];
    SingleReads(plan, s.pods, u, n);
    var s' := WatchNode(plan, env, s, u, id, pod);
    var t := if pod.Live() then s.(busy := s.busy + {u.nodes[0]}) else s;
    if pod.Ended() {
      var parsed := LogRule(plan.tests[u.test].test, env.report(id));
      FinishedAdds(plan, env, t, u, parsed);
      SingleConcludes(plan, env, s.pods, u, n);
      SameLog(t, s, s', u, [Finish(parsed, env.limit)]);
      LoggedEnd(plan, env, s, u, s', Finish(parsed, env.limit));
    } else if env.overdue(id) {
      var k := t.(kill := t.kill + {id});
      FinishedAdds(plan, env, k, u, MACHINERY_ERROR);
      Expires(plan, env, s.pods, u, n, 0);
      SameLog(k, s, s', u, [Finish(MACHINERY_ERROR, env.limit)]);
      LoggedEnd(plan, env, s, u, s', Finish(MACHINERY_ERROR, env.limit));
    } else {
      Within(plan, env, s.pods, u, n, 0);
      if pod.Started() {
        var more := WatchedAdds(plan, env, t, u, id);
        SameLog(t, s, s', u, more);
        LoggedOn(plan, env, s, u, s', more);
      } else {
        NothingAdds(s, s', u);
        LoggedOn(plan, env, s, u, s', []);
      }
    }
  }

  lemma SameLog(t: Sweep, s: Sweep, s': Sweep, u: Unit, more: seq<Event>)
    requires t.log == s.log && Adds(t, s', u, more)
    ensures Adds(s, s', u, more)
  {
  }

  // --- pairs and groups

  lemma StartLogged(plan: Plan, env: Env, s: Sweep, u: Unit)
    requires u.test < |plan.tests| && |u.nodes| >= 2 && !There(s.pods, u, 0, Current(plan, s.results, u))
    ensures VisitLogs(plan, env, s, u, StartUnit(plan, env, s, u))
  {
    hide Finished, Current, Adds, LaunchUnit, VisitLogs, NodeSet;
    var n := Current(plan, s.results, u);
    var id := PodId(u, 0, n);
    var s' := StartUnit(plan, env, s, u);
    assert !AllThere(s.pods, u, n);
    if env.launch && |s.busy + NodeSet(u)| <= env.cap && !env.builds(id) {
      FinishedAdds(plan, env, s, u, MACHINERY_ERROR);
      assert Unbuilt(env, s.pods, u, n);
      LoggedOn(plan, env, s, u, s', [Finish(MACHINERY_ERROR, env.limit)]);
    } else {
      NothingAdds(s, s', u);
      LoggedOn(plan, env, s, u, s', []);
    }
  }

  /** The first rank ended before the others existed. */
  lemma FirstConcludes(plan: Plan, env: Env, pods: map<PodId, Pod>, u: Unit, n: int)
    requires u.test < |plan.tests| && |u.nodes| >= 2 && !AllThere(pods, u, n) && EndedAt(pods, u, 0, n)
    requires plan.tests[u.test].scope == PairScope || plan.tests[u.test].scope == GroupScope
    requires plan.tests[u.test].scope == PairScope ==> |u.nodes| == 2
    ensures var h := env.report(PodId(u, 0, n));
            var p := if plan.tests[u.test].scope == PairScope then CombinePair(plan.tests[u.test].test, Some(h.parsed), None, h.logLost) else env.collective(u);
            Reported(plan, pods, u, n) && Concludes(plan, env, pods, u, n, Finish(p, env.limit))
  {
    FirstReads(plan, pods, u, n);
    if plan.tests[u.test].scope == PairScope {
      assert !There(pods, u, 1, n);
      CombinedReports(plan.tests[u.test].test, Some(env.report(PodId(u, 0, n))), None, env.report(PodId(u, 0, n)).logLost);
      assert EndOf(env, pods, u, 0, n) == Some(env.report(PodId(u, 0, n))) && EndOf(env, pods, u, 1, n) == None;
    }
    hide CombinePair, LinkReport, Reported;
  }

  lemma GateLogged(plan: Plan, env: Env, s: Sweep, u: Unit)
    requires u.test < |plan.tests| && |u.nodes| >= 2 && There(s.pods, u, 0, Current(plan, s.results, u))
    requires !AllThere(s.pods, u, Current(plan, s.results, u))
    requires plan.tests[u.test].scope == PairScope || plan.tests[u.test].scope == GroupScope
    requires plan.tests[u.test].scope == PairScope ==> |u.nodes| == 2
    ensures VisitLogs(plan, env, s, u, GateUnit(plan, env, s, u))
  {
    hide Finished, CreateRest, CombinePair, AttemptPods, Played, Current, Adds, VisitLogs, Reported, TimedOut, Concludes, Deciding, AllThere;
    var n := Current(plan, s.results, u);
    var id := PodId(u, 0, n);
    var root, h := s.pods[id], env.report(id);
    FirstReads(plan, s.pods, u, n);
    var s' := GateUnit(plan, env, s, u);
    var k := s.(kill := s.kill + AttemptPods(s.pods, u, n));
    if root.Ended() {
      FirstConcludes(plan, env, s.pods, u, n);
      var pair := plan.tests[u.test].scope == PairScope;
      var p := if pair then CombinePair(plan.tests[u.test].test, Some(h.parsed), None, h.logLost) else env.collective(u);
      FinishedAdds(plan, env, if pair then s else k, u, p);
      SameLog(if pair then s else k, s, s', u, [Finish(p, env.limit)]);
      LoggedEnd(plan, env, s, u, s', Finish(p, env.limit));
    } else if env.overdue(id) {
      FinishedAdds(plan, env, k, u, MACHINERY_ERROR);
      Expires(plan, env, s.pods, u, n, 0);
      SameLog(k, s, s', u, [Finish(MACHINERY_ERROR, env.limit)]);
      LoggedEnd(plan, env, s, u, s', Finish(MACHINERY_ERROR, env.limit));
    } else {
      Within(plan, env, s.pods, u, n, 0);
      GateOpens(plan, env, s, u);
    }
  }

  lemma GateOpens(plan: Plan, env: Env, s: Sweep, u: Unit)
    requires u.test < |plan.tests| && |u.nodes| >= 2 && There(s.pods, u, 0, Current(plan, s.results, u))
    requires var n := Current(plan, s.results, u);
             !AllThere(s.pods, u, n) && !Reported(plan, s.pods, u, n) && !TimedOut(plan, env, s.pods, u, n)
             && !s.pods[PodId(u, 0, n)].Ended() && !env.overdue(PodId(u, 0, n))
    ensures VisitLogs(plan, env, s, u, GateUnit(plan, env, s, u))
  {
    hide Finished, CreateRest, CombinePair, AttemptPods, Played, Current, Adds, VisitLogs, Reported, TimedOut, Concludes, AllThere, Unbuilt;
    var n := Current(plan, s.results, u);
    var root := s.pods[PodId(u, 0, n)];
    var s' := GateUnit(plan, env, s, u);
    if !root.Started() {
      NothingAdds(s, s', u);
      LoggedOn(plan, env, s, u, s', []);
    } else {
      PlayedAdds(plan, env, s, u, Begin);
      var begun := Played(plan, env, s, u, Begin);
      if root.Ready() && env.launch {
        var rest := RestAdds(plan, env, begun, u, n, 1);
        PlayedPods(plan, env, s, u, Begin);
        AddsTwice(s, begun, s', u, [Begin], rest);
        assert [Begin] + [] == [Begin];
        LoggedOn(plan, env, s, u, s', [Begin] + rest);
      } else {
        assert s'.log == begun.log;
        SameEnd(s, begun, s', u, [Begin]);
        LoggedOn(plan, env, s, u, s', [Begin]);
      }
    }
  }

  lemma PlayedPods(plan: Plan, env: Env, s: Sweep, u: Unit, e: Event)
    requires u.test < |plan.tests|
    ensures Played(plan, env, s, u, e).pods == s.pods
  {
    hide Step;
  }

  lemma SameEnd(s: Sweep, t: Sweep, s': Sweep, u: Unit, more: seq<Event>)
    requires s'.log == t.log && Adds(s, t, u, more)
    ensures Adds(s, s', u, more)
  {
  }

  lemma ClientConcludes(plan: Plan, env: Env, pods: map<PodId, Pod>, u: Unit, n: int)
    requires u.test < |plan.tests| && |u.nodes| == 2 && plan.tests[u.test].scope == PairScope && AllThere(pods, u, n) && EndedAt(pods, u, 1, n)
    ensures var h, g := env.report(PodId(u, 1, n)), env.report(PodId(u, 0, n));
            var test := plan.tests[u.test].test;
            var p := if EndedAt(pods, u, 0, n) then CombinePair(test, Some(g.parsed), Some(h.parsed), h.logLost || g.logLost)
                     else CombinePair(test, None, Some(h.parsed), h.logLost);
            Reported(plan, pods, u, n) && Concludes(plan, env, pods, u, n, Finish(p, env.limit))
  {
    ClientReads(plan, pods, u, n);
    var h, g := env.report(PodId(u, 1, n)), env.report(PodId(u, 0, n));
    if EndedAt(pods, u, 0, n) {
      CombinedReports(plan.tests[u.test].test, Some(g), Some(h), h.logLost || g.logLost);
    } else {
      CombinedReports(plan.tests[u.test].test, None, Some(h), h.logLost);
    }
    hide CombinePair, LinkReport, Reported;
  }

  lemma PairLogged(plan: Plan, env: Env, s: Sweep, u: Unit)
    requires u.test < |plan.tests| && |u.nodes| == 2 && plan.tests[u.test].scope == PairScope
    requires AllThere(s.pods, u, Current(plan, s.results, u))
    requires forall rank: nat :: rank < 2 ==> RankId(u, rank, Current(plan, s.results, u)) in s.pods
    ensures VisitLogs(plan, env, s, u, HarvestPair(plan, env, s, u))
  {
    hide Finished, Watched, CombinePair, Current, Adds, VisitLogs, Reported, TimedOut, Concludes, Deciding, AllThere, NoOutcome;
    var n := Current(plan, s.results, u);
    var server, client := PodId(u, 0, n), PodId(u, 1, n);
    var h, g := env.report(client), env.report(server);
    var test := plan.tests[u.test].test;
    ClientReads(plan, s.pods, u, n);
    var s' := HarvestPair(plan, env, s, u);
    if s.pods[client].Ended() {
      ClientConcludes(plan, env, s.pods, u, n);
      var both := s.pods[server].Ended();
      var t := if both then s else s.(kill := s.kill + {server});
      var p := if both then CombinePair(test, Some(g.parsed), Some(h.parsed), h.logLost || g.logLost) else CombinePair(test, None, Some(h.parsed), h.logLost);
      FinishedAdds(plan, env, t, u, p);
      SameLog(t, s, s', u, [Finish(p, env.limit)]);
      LoggedEnd(plan, env, s, u, s', Finish(p, env.limit));
    } else if env.overdue(client) {
      var k := s.(kill := s.kill + {server, client});
      FinishedAdds(plan, env, k, u, MACHINERY_ERROR);
      Expires(plan, env, s.pods, u, n, 1);
      SameLog(k, s, s', u, [Finish(MACHINERY_ERROR, env.limit)]);
      LoggedEnd(plan, env, s, u, s', Finish(MACHINERY_ERROR, env.limit));
    } else {
      Within(plan, env, s.pods, u, n, 1);
      var more := WatchedAdds(plan, env, s, u, client);
      assert NoOutcome(plan, env, s.pods, u, n, more) by { WatchingIsNoOutcome(plan, env, s.pods, u, n, more); }
      LoggedOn(plan, env, s, u, s', more);
    }
  }

  lemma WatchingIsNoOutcome(plan: Plan, env: Env, pods: map<PodId, Pod>, u: Unit, n: int, more: seq<Event>)
    requires u.test < |plan.tests| && |u.nodes| >= 2 && AllThere(pods, u, n) && Watching(env, Sampler(plan, u, n), more)
    ensures NoOutcome(plan, env, pods, u, n, more)
  {
  }

  lemma GroupLogged(plan: Plan, env: Env, s: Sweep, u: Unit)
    requires u.test < |plan.tests| && |u.nodes| >= 2 && plan.tests[u.test].scope == GroupScope
    requires AllThere(s.pods, u, Current(plan, s.results, u))
    ensures VisitLogs(plan, env, s, u, HarvestGroup(plan, env, s, u))
  {
    hide HarvestGroup, Finished, Watched, Current, Adds, VisitLogs, Reported, Concludes, Deciding, AllThere, NoOutcome, TimedOut;
    var n := Current(plan, s.results, u);
    RanksRead(plan, s.pods, u, n);
    GroupIs(plan, env, s, u);
    var s' := HarvestGroup(plan, env, s, u);
    var pods := AttemptPods(s.pods, u, n);
    if Reported(plan, s.pods, u, n) {
      FinishedAdds(plan, env, s, u, env.collective(u));
      assert Concludes(plan, env, s.pods, u, n, Finish(env.collective(u), env.limit)) by { CollectiveConcludes(plan, env, s.pods, u, n); }
      LoggedEnd(plan, env, s, u, s', Finish(env.collective(u), env.limit));
    } else if exists id :: id in pods && env.overdue(id) {
      var id :| id in pods && env.overdue(id);
      var k := s.(kill := s.kill + pods);
      FinishedAdds(plan, env, k, u, MACHINERY_ERROR);
      Expires(plan, env, s.pods, u, n, id.rank);
      SameLog(k, s, s', u, [Finish(MACHINERY_ERROR, env.limit)]);
      LoggedEnd(plan, env, s, u, s', Finish(MACHINERY_ERROR, env.limit));
    } else {
      NoneOverdue(plan, env, s.pods, u, n);
      var more := WatchedAdds(plan, env, s, u, PodId(u, 0, n));
      WatchingIsNoOutcome(plan, env, s.pods, u, n, more);
      LoggedOn(plan, env, s, u, s', more);
    }
  }

  lemma GroupIs(plan: Plan, env: Env, s: Sweep, u: Unit)
    requires u.test < |plan.tests|
    ensures var n := Current(plan, s.results, u);
            var pods := AttemptPods(s.pods, u, n);
            HarvestGroup(plan, env, s, u) ==
              if forall id :: id in pods ==> s.pods[id].Ended() then Finished(plan, env, s, u, env.collective(u))
              else if exists id :: id in pods && env.overdue(id) then Finished(plan, env, s.(kill := s.kill + pods), u, MACHINERY_ERROR)
              else Watched(plan, env, s, u, PodId(u, 0, n))
  {
    hide Finished, Watched, Current;
  }

  lemma CollectiveConcludes(plan: Plan, env: Env, pods: map<PodId, Pod>, u: Unit, n: int)
    requires u.test < |plan.tests| && plan.tests[u.test].scope == GroupScope && Reported(plan, pods, u, n)
    ensures Concludes(plan, env, pods, u, n, Finish(env.collective(u), env.limit))
  {
  }

  lemma NoneOverdue(plan: Plan, env: Env, pods: map<PodId, Pod>, u: Unit, n: int)
    requires u.test < |plan.tests| && TimedOutAmong(plan, pods, u, n) && !exists id :: id in AttemptPods(pods, u, n) && env.overdue(id)
    ensures !TimedOut(plan, env, pods, u, n)
  {
  }

  /** Which attempt ends in a visit, and with what. */
  lemma VisitRecords(plan: Plan, env: Env, s: Sweep, u: Unit)
    requires UnitOk(plan, u) && !Over(s.results, u)
    ensures VisitLogs(plan, env, s, u, Advance(plan, env, s, u))
  {
    hide AdvanceNode, GateUnit, HarvestPair, HarvestGroup, StartUnit, AnyLive, NodeSet, Current, VisitLogs, Adds;
    var n := Current(plan, s.results, u);
    if plan.tests[u.test].scope == NodeScope {
      SingleLogged(plan, env, s, u);
    } else {
      var t := Claimed(plan, s, u);
      ClaimedKeeps(plan, s, u);
      assert Complete(s.pods, u, n) <==> AllThere(s.pods, u, n) by { CompleteIsAllThere(s.pods, u, n); }
      if !There(s.pods, u, 0, n) {
        StartLogged(plan, env, t, u);
      } else if !AllThere(s.pods, u, n) {
        GateLogged(plan, env, t, u);
      } else if plan.tests[u.test].scope == PairScope {
        CompleteHas(s.pods, u, n);
        PairLogged(plan, env, t, u);
      } else {
        GroupLogged(plan, env, t, u);
      }
      hide Complete, AllThere;
      ClaimedLogs(plan, env, s, t, u, Advance(plan, env, s, u));
    }
  }

  lemma CompleteIsAllThere(pods: map<PodId, Pod>, u: Unit, n: int)
    ensures Complete(pods, u, n) <==> AllThere(pods, u, n)
  {
    if Complete(pods, u, n) {
      forall rank: nat | rank < |u.nodes| ensures There(pods, u, rank, n) { assert RankId(u, rank, n) in pods; }
    }
    if AllThere(pods, u, n) {
      forall rank: nat | rank < |u.nodes| ensures RankId(u, rank, n) in pods { assert There(pods, u, rank, n); }
    }
  }

  lemma ClaimedLogs(plan: Plan, env: Env, s: Sweep, t: Sweep, u: Unit, s': Sweep)
    requires u.test < |plan.tests| && t.pods == s.pods && t.results == s.results && t.log == s.log && VisitLogs(plan, env, t, u, s')
    ensures VisitLogs(plan, env, s, u, s')
  {
    hide Reported, TimedOut, Concludes, NoOutcome, Current;
    var n := Current(plan, s.results, u);
    var more :| Adds(t, s', u, more)
      && if Reported(plan, s.pods, u, n) || TimedOut(plan, env, s.pods, u, n)
         then |more| == 1 && Concludes(plan, env, s.pods, u, n, more[0])
         else NoOutcome(plan, env, s.pods, u, n, more);
    SameLog(t, s, s', u, more);
  }

  // ---------------------------------------------------------------- what a visit does besides

  predicate Alive(pods: map<PodId, Pod>, id: PodId) {
    id in pods && pods[id].phase != PodSucceeded && pods[id].phase != PodFailed
  }

  /** The attempt is over: every pod of it still alive is condemned, and nothing is created. */
  ghost predicate Closes(plan: Plan, s: Sweep, u: Unit, n: int, s': Sweep)
    requires u.test < |plan.tests|
  {
    && s'.harvested && s'.ok == s.ok && s'.pods == s.pods && s'.running == s.running && s'.pending == s.pending
    && (forall rank: nat :: rank < |u.nodes| && Alive(s.pods, PodId(u, rank, n)) ==> PodId(u, rank, n) in s'.kill)
    && PutOnRecord(plan, s, u, n, s')
  }

  /** The attempt is recorded as finished: the result has moved past it. */
  ghost predicate PutOnRecord(plan: Plan, s: Sweep, u: Unit, n: int, s': Sweep)
    requires u.test < |plan.tests|
  {
    Ready(plan, s.results, u) ==> u in s'.results && NextNumber(s'.results[u].attempts) > n
  }

  /** A pod the attempt needs now: the first, and once that one is Ready the others. */
  predicate Needed(pods: map<PodId, Pod>, u: Unit, n: int, rank: nat) {
    && rank < |u.nodes| && !There(pods, u, rank, n)
    && (rank == 0 || (There(pods, u, 0, n) && pods[PodId(u, 0, n)].phase == PodRunning && pods[PodId(u, 0, n)].readyCondition))
  }

  /** The nodes fit: a single one that is counted already or under the cap, a pair's or group's all together. */
  predicate Room(env: Env, s: Sweep, u: Unit) {
    if |u.nodes| == 1 then u.nodes[0] in s.busy || |s.busy| < env.cap else |s.busy + (set n | n in u.nodes)| <= env.cap
  }

  /** It needs a pod it may not start. */
  ghost predicate Blocked(env: Env, s: Sweep, u: Unit, n: int) {
    (exists rank: nat :: Needed(s.pods, u, n, rank)) && (!env.launch || (!There(s.pods, u, 0, n) && !Room(env, s, u)))
  }

  ghost predicate AllBuilt(env: Env, pods: map<PodId, Pod>, u: Unit, n: int) {
    forall rank: nat :: Needed(pods, u, n, rank) ==> env.builds(PodId(u, rank, n))
  }

  /** The API takes every write: the stamps of a start, and the pods. */
  ghost predicate AllAccepted(env: Env, pods: map<PodId, Pod>, u: Unit, n: int) {
    && (forall rank: nat :: Needed(pods, u, n, rank) ==> env.creates(PodId(u, rank, n)))
    && (!There(pods, u, 0, n) ==> forall i :: 0 <= i < |u.nodes| ==> env.cordons(u.nodes[i]))
  }

  /** Exactly the pods needed were created, each waiting to be scheduled. */
  ghost predicate Created(s: Sweep, u: Unit, n: int, s': Sweep) {
    && (forall id :: id in s'.pods <==> id in s.pods || (id.unit == u && id.attempt == n && Needed(s.pods, u, n, id.rank)))
    && (forall id :: id in s'.pods ==> s'.pods[id] == if id in s.pods then s.pods[id] else Pod(PodPending, false, false, false))
  }

  /** The attempt goes on: blocked, it waits; otherwise it starts what it needs, or the sweep is abandoned, or it ends for a pod that cannot be built. */
  ghost predicate GoesOn(env: Env, s: Sweep, u: Unit, n: int, s': Sweep) {
    && (s'.pending <==> s.pending || Blocked(env, s, u, n))
    && (s.running ==> s'.running)
    && (Blocked(env, s, u, n) ==> s'.pods == s.pods && s'.ok == s.ok && s'.harvested == s.harvested && s'.running == s.running)
    && (!Blocked(env, s, u, n) && AllBuilt(env, s.pods, u, n) && AllAccepted(env, s.pods, u, n) ==>
          s'.ok == s.ok && s'.running && s'.harvested == s.harvested && Created(s, u, n, s'))
    && (!Blocked(env, s, u, n) && AllBuilt(env, s.pods, u, n) && !AllAccepted(env, s.pods, u, n) ==> !s'.ok)
    && (!Blocked(env, s, u, n) && !AllBuilt(env, s.pods, u, n) ==> s'.harvested || !s'.ok)
  }

  ghost predicate VisitMoves(plan: Plan, env: Env, s: Sweep, u: Unit, s': Sweep)
    requires u.test < |plan.tests|
  {
    var n := Current(plan, s.results, u);
    if Reported(plan, s.pods, u, n) || TimedOut(plan, env, s.pods, u, n) then Closes(plan, s, u, n, s')
    else GoesOn(env, s, u, n, s')
  }

  lemma FinishedShape(plan: Plan, env: Env, s: Sweep, u: Unit, parsed: Parsed)
    requires u.test < |plan.tests|
    ensures var t := Finished(plan, env, s, u, parsed); t == s.(results := t.results, log := t.log, harvested := true)
    ensures PutOnRecord(plan, s, u, Current(plan, s.results, u), Finished(plan, env, s, u, parsed))
  {
    if Ready(plan, s.results, u) { FinishedMoves(plan, env, s, u, parsed); }
    hide Step, Ready, Moved, NextNumber;
  }

  /** An end reached from here, with only more nodes counted and more pods condemned in between. */
  lemma EndedVisit(plan: Plan, env: Env, s: Sweep, t: Sweep, u: Unit, parsed: Parsed)
    requires u.test < |plan.tests| && t == s.(busy := t.busy, kill := t.kill)
    ensures var s' := Finished(plan, env, t, u, parsed);
            && s'.harvested && s'.ok == s.ok && s'.pods == s.pods && s'.running == s.running && s'.pending == s.pending && s'.kill == t.kill
            && PutOnRecord(plan, s, u, Current(plan, s.results, u), s')
  {
    FinishedShape(plan, env, t, u, parsed);
    hide Finished, Current, NextNumber, Ready;
  }

  lemma WatchedShape(plan: Plan, env: Env, s: Sweep, u: Unit, id: PodId)
    requires u.test < |plan.tests|
    ensures var t := Watched(plan, env, s, u, id); t == s.(results := t.results, log := t.log, running := true)
    ensures var t := Played(plan, env, s, u, Begin); t == s.(results := t.results, log := t.log)
  {
    hide Step;
  }

  /** Nothing is needed while the first pod is there and not Ready, or all are. */
  lemma NothingNeeded(env: Env, s: Sweep, u: Unit, n: int, s': Sweep)
    requires forall rank: nat :: !Needed(s.pods, u, n, rank)
    requires There(s.pods, u, 0, n) && s'.pods == s.pods && s'.ok == s.ok && s'.harvested == s.harvested && s'.pending == s.pending && s'.running
    ensures GoesOn(env, s, u, n, s')
  {
  }

  lemma FirstNeeded(pods: map<PodId, Pod>, u: Unit, n: int)
    requires |u.nodes| >= 1 && !There(pods, u, 0, n)
    ensures forall rank: nat :: Needed(pods, u, n, rank) <==> rank == 0
  {
  }

  lemma SingleMoves(plan: Plan, env: Env, s: Sweep, u: Unit)
    requires u.test < |plan.tests| && |u.nodes| == 1 && plan.tests[u.test].scope == NodeScope
    ensures VisitMoves(plan, env, s, u, AdvanceNode(plan, env, s, u))
  {
    hide VisitMoves, StartNode, WatchNode, Current;
    var id := PodId(u, 0, Current(plan, s.results, u));
    if id in s.pods { SingleWatchMoves(plan, env, s, u, id); } else { SingleStartMoves(plan, env, s, u, id); }
  }

  lemma SingleWatchMoves(plan: Plan, env: Env, s: Sweep, u: Unit, id: PodId)
    requires u.test < |plan.tests| && |u.nodes| == 1 && plan.tests[u.test].scope == NodeScope
    requires id == PodId(u, 0, Current(plan, s.results, u)) && id in s.pods
    ensures VisitMoves(plan, env, s, u, WatchNode(plan, env, s, u, id, s.pods[id]))
  {
    hide WatchNode, Current, Reported, TimedOut, Deciding, Closes, GoesOn, VisitMoves, Needed;
    var n, pod := Current(plan, s.results, u), s.pods[id];
    SingleReads(plan, s.pods, u, n);
    var s' := WatchNode(plan, env, s, u, id, pod);
    if pod.Ended() || env.overdue(id) {
      if !pod.Ended() { Expires(plan, env, s.pods, u, n, 0); }
      SingleEnds(plan, env, s, u, id);
      SingleCloses(plan, s, u, n, s');
      MovesClosed(plan, env, s, u, s');
    } else {
      Within(plan, env, s.pods, u, n, 0);
      SingleStays(plan, env, s, u, id);
      SingleNeedsNothing(s.pods, u, n);
      NothingNeeded(env, s, u, n, s');
      MovesOn(plan, env, s, u, s');
    }
  }

  lemma SingleEnds(plan: Plan, env: Env, s: Sweep, u: Unit, id: PodId)
    requires u.test < |plan.tests| && |u.nodes| == 1 && id == PodId(u, 0, Current(plan, s.results, u))
    requires id in s.pods && (s.pods[id].Ended() || env.overdue(id))
    ensures var s' := WatchNode(plan, env, s, u, id, s.pods[id]);
            && (Alive(s.pods, id) ==> id in s'.kill)
            && s'.harvested && s'.ok == s.ok && s'.pods == s.pods && s'.running == s.running && s'.pending == s.pending
            && PutOnRecord(plan, s, u, id.attempt, s')
  {
    hide Finished, Watched, LogRule, PutOnRecord, Current;
    var t := if s.pods[id].Live() then s.(busy := s.busy + {u.nodes[0]}) else s;
    if s.pods[id].Ended() {
      EndedVisit(plan, env, s, t, u, LogRule(plan.tests[u.test].test, env.report(id)));
    } else {
      EndedVisit(plan, env, s, t.(kill := t.kill + {id}), u, MACHINERY_ERROR);
    }
  }

  lemma SingleStays(plan: Plan, env: Env, s: Sweep, u: Unit, id: PodId)
    requires u.test < |plan.tests| && |u.nodes| == 1 && id in s.pods && !s.pods[id].Ended() && !env.overdue(id)
    ensures var s' := WatchNode(plan, env, s, u, id, s.pods[id]);
            s'.pods == s.pods && s'.ok == s.ok && s'.harvested == s.harvested && s'.pending == s.pending && s'.running
  {
    hide Finished, Watched, LogRule;
    WatchedShape(plan, env, if s.pods[id].Live() then s.(busy := s.busy + {u.nodes[0]}) else s, u, id);
  }

  lemma SingleNeedsNothing(pods: map<PodId, Pod>, u: Unit, n: int)
    requires |u.nodes| == 1 && There(pods, u, 0, n)
    ensures forall rank: nat :: !Needed(pods, u, n, rank)
  {
  }

  lemma SingleCloses(plan: Plan, s: Sweep, u: Unit, n: int, s': Sweep)
    requires |u.nodes| == 1 && (Alive(s.pods, PodId(u, 0, n)) ==> PodId(u, 0, n) in s'.kill)
    requires u.test < |plan.tests| && PutOnRecord(plan, s, u, n, s')
    requires s'.harvested && s'.ok == s.ok && s'.pods == s.pods && s'.running == s.running && s'.pending == s.pending
    ensures Closes(plan, s, u, n, s')
  {
    hide Alive;
  }

  lemma MovesClosed(plan: Plan, env: Env, s: Sweep, u: Unit, s': Sweep)
    requires u.test < |plan.tests|
    requires var n := Current(plan, s.results, u);
             (Reported(plan, s.pods, u, n) || TimedOut(plan, env, s.pods, u, n)) && Closes(plan, s, u, n, s')
    ensures VisitMoves(plan, env, s, u, s')
  {
    hide Current, Reported, TimedOut, Closes, GoesOn;
  }

  lemma MovesOn(plan: Plan, env: Env, s: Sweep, u: Unit, s': Sweep)
    requires u.test < |plan.tests|
    requires var n := Current(plan, s.results, u);
             !Reported(plan, s.pods, u, n) && !TimedOut(plan, env, s.pods, u, n) && GoesOn(env, s, u, n, s')
    ensures VisitMoves(plan, env, s, u, s')
  {
    hide Current, Reported, TimedOut, Closes, GoesOn;
  }

  lemma SingleStartMoves(plan: Plan, env: Env, s: Sweep, u: Unit, id: PodId)
    requires u.test < |plan.tests| && |u.nodes| == 1 && plan.tests[u.test].scope == NodeScope
    requires id == PodId(u, 0, Current(plan, s.results, u)) && id !in s.pods
    ensures VisitMoves(plan, env, s, u, StartNode(plan, env, s, u, id))
  {
    hide StartNode, Current, Reported, TimedOut, Closes, GoesOn, VisitMoves, Needed, Room;
    var n := Current(plan, s.results, u);
    NotThere(plan, env, s.pods, u, n);
    FirstNeeded(s.pods, u, n);
    SingleShape(plan, env, s, u, id);
    FirstStarts(env, s, u, n, StartNode(plan, env, s, u, id));
    MovesOn(plan, env, s, u, StartNode(plan, env, s, u, id));
  }

  lemma SingleShape(plan: Plan, env: Env, s: Sweep, u: Unit, id: PodId)
    requires u.test < |plan.tests| && |u.nodes| == 1
    ensures s.running ==> StartNode(plan, env, s, u, id).running
    ensures var s' := StartNode(plan, env, s, u, id);
            if !env.launch || !Room(env, s, u) then s' == s.(pending := true, busy := s'.busy)
            else if !env.builds(id) then s'.harvested && s'.pending == s.pending
            else if !env.cordons(u.nodes[0]) || !env.creates(id) then !s'.ok && s'.pending == s.pending
            else s'.pods == s.pods[id := NEW_POD] && s'.ok == s.ok && s'.harvested == s.harvested && s'.running && s'.pending == s.pending
  {
    hide Finished;
    FinishedShape(plan, env, s, u, MACHINERY_ERROR);
  }

  lemma NotThere(plan: Plan, env: Env, pods: map<PodId, Pod>, u: Unit, n: int)
    requires u.test < |plan.tests| && !There(pods, u, 0, n)
    ensures !Reported(plan, pods, u, n) && !TimedOut(plan, env, pods, u, n)
  {
  }

  /** Starting an attempt, from what happened to its first pod. */
  lemma FirstStarts(env: Env, s: Sweep, u: Unit, n: int, s': Sweep)
    requires |u.nodes| >= 1 && !There(s.pods, u, 0, n) && forall rank: nat :: Needed(s.pods, u, n, rank) <==> rank == 0
    requires s.running ==> s'.running
    requires var id := PodId(u, 0, n);
             if !env.launch || !Room(env, s, u) then s' == s.(pending := true, busy := s'.busy)
             else if !env.builds(id) then s'.harvested && s'.pending == s.pending
             else if !(forall i :: 0 <= i < |u.nodes| ==> env.cordons(u.nodes[i])) || !env.creates(id) then !s'.ok && s'.pending == s.pending
             else s'.pods == s.pods[id := NEW_POD] && s'.ok == s.ok && s'.harvested == s.harvested && s'.running && s'.pending == s.pending
    ensures GoesOn(env, s, u, n, s')
  {
    hide Needed, Room;
    var id := PodId(u, 0, n);
    assert Needed(s.pods, u, n, 0);
    assert AllBuilt(env, s.pods, u, n) <==> env.builds(id);
    if s'.pods == s.pods[id := NEW_POD] { assert Created(s, u, n, s'); }
  }

  lemma StartMoves(plan: Plan, env: Env, s: Sweep, u: Unit)
    requires u.test < |plan.tests| && |u.nodes| >= 2 && !There(s.pods, u, 0, Current(plan, s.results, u))
    ensures VisitMoves(plan, env, s, u, StartUnit(plan, env, s, u))
  {
    hide StartUnit, Current, Reported, TimedOut, Closes, GoesOn, VisitMoves, Needed, Room;
    var n := Current(plan, s.results, u);
    NotThere(plan, env, s.pods, u, n);
    FirstNeeded(s.pods, u, n);
    StartShape(plan, env, s, u);
    FirstStarts(env, s, u, n, StartUnit(plan, env, s, u));
    MovesOn(plan, env, s, u, StartUnit(plan, env, s, u));
  }

  lemma StartShape(plan: Plan, env: Env, s: Sweep, u: Unit)
    requires u.test < |plan.tests| && |u.nodes| >= 2
    ensures s.running ==> StartUnit(plan, env, s, u).running
    ensures var s', id := StartUnit(plan, env, s, u), PodId(u, 0, Current(plan, s.results, u));
            if !env.launch || !Room(env, s, u) then s' == s.(pending := true, busy := s'.busy)
            else if !env.builds(id) then s'.harvested && s'.pending == s.pending
            else if !AllCordon(env, u.nodes) || !env.creates(id) then !s'.ok && s'.pending == s.pending
            else s'.pods == s.pods[id := NEW_POD] && s'.ok == s.ok && s'.harvested == s.harvested && s'.running && s'.pending == s.pending
  {
    hide Finished, Current, StampWave, AllCordon;
    FinishedShape(plan, env, s, u, MACHINERY_ERROR);
  }

  /** The ranks from this one on whose pods do not exist. */
  function Missing(pods: map<PodId, Pod>, u: Unit, n: int, rank: nat): set<nat> {
    set r: nat | rank <= r < |u.nodes| && !There(pods, u, r, n)
  }

  /** All of them were created, or the API refused one, or one could not be built. */
  ghost predicate Joining(env: Env, s: Sweep, u: Unit, n: int, missing: set<nat>, t: Sweep) {
    && t.pending == s.pending && (s.running ==> t.running)
    && ((forall r: nat :: r in missing ==> env.builds(PodId(u, r, n)) && env.creates(PodId(u, r, n))) ==>
          t.ok == s.ok && t.running && t.harvested == s.harvested && WithRanks(s.pods, u, n, missing, t.pods))
    && ((forall r: nat :: r in missing ==> env.builds(PodId(u, r, n))) && (exists r: nat :: r in missing && !env.creates(PodId(u, r, n))) ==> !t.ok)
    && ((exists r: nat :: r in missing && !env.builds(PodId(u, r, n))) ==> t.harvested || !t.ok)
  }

  ghost predicate WithRanks(pods: map<PodId, Pod>, u: Unit, n: int, missing: set<nat>, pods': map<PodId, Pod>) {
    && (forall id :: id in pods' <==> id in pods || (id.unit == u && id.attempt == n && id.rank in missing))
    && (forall id :: id in pods' ==> pods'[id] == if id in pods then pods[id] else NEW_POD)
  }

  lemma {:induction false} RestMoves(plan: Plan, env: Env, s: Sweep, u: Unit, n: int, rank: nat)
    requires u.test < |plan.tests|
    ensures Joining(env, s, u, n, Missing(s.pods, u, n, rank), CreateRest(plan, env, s, u, n, rank))
    decreases |u.nodes| - rank
  {
    hide Finished, Joining;
    var t := CreateRest(plan, env, s, u, n, rank);
    if rank >= |u.nodes| {
      assert Missing(s.pods, u, n, rank) == {};
      NoneJoining(env, s, u, n, t);
    } else {
      var id := RankId(u, rank, n);
      MissingNext(s.pods, u, n, rank);
      if id in s.pods {
        RestMoves(plan, env, s, u, n, rank + 1);
      } else if !env.builds(id) {
        FinishedShape(plan, env, s, u, MACHINERY_ERROR);
        NotJoining(env, s, u, n, Missing(s.pods, u, n, rank), rank, t);
      } else if !env.creates(id) {
        NotJoining(env, s, u, n, Missing(s.pods, u, n, rank), rank, t);
      } else {
        var s1 := s.(pods := s.pods[id := NEW_POD]);
        RestMoves(plan, env, s1, u, n, rank + 1);
        OneJoining(env, s, u, n, Missing(s1.pods, u, n, rank + 1), rank, t);
      }
    }
  }

  lemma MissingNext(pods: map<PodId, Pod>, u: Unit, n: int, rank: nat)
    requires rank < |u.nodes|
    ensures There(pods, u, rank, n) ==> Missing(pods, u, n, rank) == Missing(pods, u, n, rank + 1)
    ensures !There(pods, u, rank, n) ==>
              Missing(pods, u, n, rank) == Missing(pods[PodId(u, rank, n) := NEW_POD], u, n, rank + 1) + {rank}
  {
  }

  lemma NoneJoining(env: Env, s: Sweep, u: Unit, n: int, t: Sweep)
    requires t == s.(running := true)
    ensures Joining(env, s, u, n, {}, t)
  {
  }

  lemma NotJoining(env: Env, s: Sweep, u: Unit, n: int, missing: set<nat>, rank: nat, t: Sweep)
    requires rank in missing && t.pending == s.pending && t.running == s.running
    requires (!env.builds(PodId(u, rank, n)) && t.harvested) || (env.builds(PodId(u, rank, n)) && !env.creates(PodId(u, rank, n)) && !t.ok)
    ensures Joining(env, s, u, n, missing, t)
  {
  }

  lemma OneJoining(env: Env, s: Sweep, u: Unit, n: int, later: set<nat>, rank: nat, t: Sweep)
    requires env.builds(PodId(u, rank, n)) && env.creates(PodId(u, rank, n)) && PodId(u, rank, n) !in s.pods
    requires Joining(env, s.(pods := s.pods[PodId(u, rank, n) := NEW_POD]), u, n, later, t)
    ensures Joining(env, s, u, n, later + {rank}, t)
  {
  }

  /** Behind a Ready first rank the missing ones are what is needed. */
  lemma JoiningGoesOn(env: Env, s: Sweep, begun: Sweep, u: Unit, n: int, s': Sweep)
    requires There(s.pods, u, 0, n) && s.pods[PodId(u, 0, n)].Ready() && env.launch
    requires begun == s.(results := begun.results, log := begun.log) && Joining(env, begun, u, n, Missing(s.pods, u, n, 1), s')
    ensures GoesOn(env, s, u, n, s')
  {
    var missing := Missing(s.pods, u, n, 1);
    forall rank: nat ensures Needed(s.pods, u, n, rank) <==> rank in missing {}
    if AllBuilt(env, s.pods, u, n) {
      assert forall r: nat :: r in missing ==> Needed(s.pods, u, n, r);
    } else {
      var r: nat :| Needed(s.pods, u, n, r) && !env.builds(PodId(u, r, n));
      assert r in missing;
    }
    if AllBuilt(env, s.pods, u, n) && !AllAccepted(env, s.pods, u, n) {
      var r: nat :| Needed(s.pods, u, n, r) && !env.creates(PodId(u, r, n));
      assert r in missing;
    }
    hide Missing, Needed;
  }

  lemma GateMoves(plan: Plan, env: Env, s: Sweep, u: Unit)
    requires u.test < |plan.tests| && |u.nodes| >= 2 && There(s.pods, u, 0, Current(plan, s.results, u))
    requires !AllThere(s.pods, u, Current(plan, s.results, u))
    requires plan.tests[u.test].scope == PairScope || plan.tests[u.test].scope == GroupScope
    requires plan.tests[u.test].scope == PairScope ==> |u.nodes| == 2
    ensures VisitMoves(plan, env, s, u, GateUnit(plan, env, s, u))
  {
    hide Finished, CreateRest, CombinePair, AttemptPods, Played, Current, VisitMoves, Reported, TimedOut, Deciding, AllThere, Closes, GoesOn;
    var n := Current(plan, s.results, u);
    var id := PodId(u, 0, n);
    var root, h := s.pods[id], env.report(id);
    FirstReads(plan, s.pods, u, n);
    var s' := GateUnit(plan, env, s, u);
    var k := s.(kill := s.kill + AttemptPods(s.pods, u, n));
    if root.Ended() {
      FinishedShape(plan, env, s, u, CombinePair(plan.tests[u.test].test, Some(h.parsed), None, h.logLost));
      FinishedShape(plan, env, k, u, env.collective(u));
      GateCloses(plan, s, u, n, s');
      MovesClosed(plan, env, s, u, s');
    } else if env.overdue(id) {
      FinishedShape(plan, env, k, u, MACHINERY_ERROR);
      Expires(plan, env, s.pods, u, n, 0);
      AllCloses(plan, s, u, n, s');
      MovesClosed(plan, env, s, u, s');
    } else {
      Within(plan, env, s.pods, u, n, 0);
      GateGoesOn(plan, env, s, u);
      MovesOn(plan, env, s, u, s');
    }
  }

  lemma AllCloses(plan: Plan, s: Sweep, u: Unit, n: int, s': Sweep)
    requires AttemptPods(s.pods, u, n) <= s'.kill
    requires u.test < |plan.tests| && PutOnRecord(plan, s, u, n, s')
    requires s'.harvested && s'.ok == s.ok && s'.pods == s.pods && s'.running == s.running && s'.pending == s.pending
    ensures Closes(plan, s, u, n, s')
  {
    forall rank: nat | rank < |u.nodes| && Alive(s.pods, PodId(u, rank, n)) ensures PodId(u, rank, n) in s'.kill {
      assert PodId(u, rank, n) in AttemptPods(s.pods, u, n);
    }
  }

  lemma GateCloses(plan: Plan, s: Sweep, u: Unit, n: int, s': Sweep)
    requires EndedAt(s.pods, u, 0, n) && !AllThere(s.pods, u, n)
    requires AttemptPods(s.pods, u, n) <= s'.kill || |u.nodes| == 2
    requires u.test < |plan.tests| && PutOnRecord(plan, s, u, n, s')
    requires s'.harvested && s'.ok == s.ok && s'.pods == s.pods && s'.running == s.running && s'.pending == s.pending
    ensures Closes(plan, s, u, n, s')
  {
    if AttemptPods(s.pods, u, n) <= s'.kill {
      AllCloses(plan, s, u, n, s');
    } else {
      assert !There(s.pods, u, 1, n);
    }
  }

  lemma GateGoesOn(plan: Plan, env: Env, s: Sweep, u: Unit)
    requires u.test < |plan.tests| && |u.nodes| >= 2 && There(s.pods, u, 0, Current(plan, s.results, u))
    requires var n := Current(plan, s.results, u);
             !AllThere(s.pods, u, n) && !s.pods[PodId(u, 0, n)].Ended() && !env.overdue(PodId(u, 0, n))
    ensures GoesOn(env, s, u, Current(plan, s.results, u), GateUnit(plan, env, s, u))
  {
    hide Finished, CreateRest, CombinePair, AttemptPods, Played, Current, GoesOn, Missing, Joining;
    var n := Current(plan, s.results, u);
    var root := s.pods[PodId(u, 0, n)];
    var s' := GateUnit(plan, env, s, u);
    var begun := Played(plan, env, s, u, Begin);
    WatchedShape(plan, env, s, u, PodId(u, 0, n));
    if !root.Ready() {
      NothingNeeded(env, s, u, n, s');
    } else if !env.launch {
      RestBlocked(env, s, begun, u, n, s');
    } else {
      RestMoves(plan, env, begun, u, n, 1);
      JoiningGoesOn(env, s, begun, u, n, s');
    }
  }

  lemma RestBlocked(env: Env, s: Sweep, begun: Sweep, u: Unit, n: int, s': Sweep)
    requires There(s.pods, u, 0, n) && s.pods[PodId(u, 0, n)].Ready() && !env.launch && !AllThere(s.pods, u, n)
    requires begun == s.(results := begun.results, log := begun.log) && s' == begun.(pending := true)
    ensures GoesOn(env, s, u, n, s')
  {
    var rank: nat :| rank < |u.nodes| && !There(s.pods, u, rank, n);
    assert Needed(s.pods, u, n, rank);
    assert Blocked(env, s, u, n);
  }

  lemma PairMoves(plan: Plan, env: Env, s: Sweep, u: Unit)
    requires u.test < |plan.tests| && |u.nodes| == 2 && plan.tests[u.test].scope == PairScope
    requires AllThere(s.pods, u, Current(plan, s.results, u))
    requires forall rank: nat :: rank < 2 ==> RankId(u, rank, Current(plan, s.results, u)) in s.pods
    ensures VisitMoves(plan, env, s, u, HarvestPair(plan, env, s, u))
  {
    hide HarvestPair, Current, VisitMoves, Reported, TimedOut, Deciding, AllThere, Closes, GoesOn, Needed;
    var n := Current(plan, s.results, u);
    var client := PodId(u, 1, n);
    ClientReads(plan, s.pods, u, n);
    var s' := HarvestPair(plan, env, s, u);
    if s.pods[client].Ended() || env.overdue(client) {
      if !s.pods[client].Ended() { Expires(plan, env, s.pods, u, n, 1); }
      PairEnds(plan, env, s, u);
      PairCloses(plan, s, u, n, s');
      MovesClosed(plan, env, s, u, s');
    } else {
      Within(plan, env, s.pods, u, n, 1);
      PairStays(plan, env, s, u);
      NoneMissing(s.pods, u, n);
      NothingNeeded(env, s, u, n, s');
      MovesOn(plan, env, s, u, s');
    }
  }

  lemma PairEnds(plan: Plan, env: Env, s: Sweep, u: Unit)
    requires u.test < |plan.tests|
    requires forall rank: nat :: rank < 2 ==> RankId(u, rank, Current(plan, s.results, u)) in s.pods
    requires var client := PodId(u, 1, Current(plan, s.results, u)); client in s.pods && (s.pods[client].Ended() || env.overdue(client))
    ensures var s', n := HarvestPair(plan, env, s, u), Current(plan, s.results, u);
            && (forall rank: nat :: rank < 2 && Alive(s.pods, PodId(u, rank, n)) ==> PodId(u, rank, n) in s'.kill)
            && s'.harvested && s'.ok == s.ok && s'.pods == s.pods && s'.running == s.running && s'.pending == s.pending
            && PutOnRecord(plan, s, u, n, s')
  {
    hide HarvestPair, Current, Alive, PutOnRecord;
    if s.pods[PodId(u, 1, Current(plan, s.results, u))].Ended() { PairReports(plan, env, s, u); } else { PairExpires(plan, env, s, u); }
  }

  lemma PairReports(plan: Plan, env: Env, s: Sweep, u: Unit)
    requires u.test < |plan.tests|
    requires forall rank: nat :: rank < 2 ==> RankId(u, rank, Current(plan, s.results, u)) in s.pods
    requires var client := PodId(u, 1, Current(plan, s.results, u)); client in s.pods && s.pods[client].Ended()
    ensures var s', n := HarvestPair(plan, env, s, u), Current(plan, s.results, u);
            && (forall rank: nat :: rank < 2 && Alive(s.pods, PodId(u, rank, n)) ==> PodId(u, rank, n) in s'.kill)
            && s'.harvested && s'.ok == s.ok && s'.pods == s.pods && s'.running == s.running && s'.pending == s.pending
            && PutOnRecord(plan, s, u, n, s')
  {
    hide Finished, Watched, CombinePair, Current, PutOnRecord;
    var n := Current(plan, s.results, u);
    var server, client := PodId(u, 0, n), PodId(u, 1, n);
    var h, g := env.report(client), env.report(server);
    var test := plan.tests[u.test].test;
    assert RankId(u, 0, n) in s.pods;
    if s.pods[server].Ended() {
      EndedVisit(plan, env, s, s, u, CombinePair(test, Some(g.parsed), Some(h.parsed), h.logLost || g.logLost));
    } else {
      EndedVisit(plan, env, s, s.(kill := s.kill + {server}), u, CombinePair(test, None, Some(h.parsed), h.logLost));
    }
  }

  lemma PairExpires(plan: Plan, env: Env, s: Sweep, u: Unit)
    requires u.test < |plan.tests|
    requires forall rank: nat :: rank < 2 ==> RankId(u, rank, Current(plan, s.results, u)) in s.pods
    requires var client := PodId(u, 1, Current(plan, s.results, u)); client in s.pods && !s.pods[client].Ended() && env.overdue(client)
    ensures var s', n := HarvestPair(plan, env, s, u), Current(plan, s.results, u);
            && (forall rank: nat :: rank < 2 && Alive(s.pods, PodId(u, rank, n)) ==> PodId(u, rank, n) in s'.kill)
            && s'.harvested && s'.ok == s.ok && s'.pods == s.pods && s'.running == s.running && s'.pending == s.pending
            && PutOnRecord(plan, s, u, n, s')
  {
    hide Finished, Watched, CombinePair, Current, PutOnRecord;
    var n := Current(plan, s.results, u);
    EndedVisit(plan, env, s, s.(kill := s.kill + {PodId(u, 0, n), PodId(u, 1, n)}), u, MACHINERY_ERROR);
  }

  lemma PairStays(plan: Plan, env: Env, s: Sweep, u: Unit)
    requires u.test < |plan.tests|
    requires forall rank: nat :: rank < 2 ==> RankId(u, rank, Current(plan, s.results, u)) in s.pods
    requires var client := PodId(u, 1, Current(plan, s.results, u)); client in s.pods && !s.pods[client].Ended() && !env.overdue(client)
    ensures var s' := HarvestPair(plan, env, s, u);
            s'.pods == s.pods && s'.ok == s.ok && s'.harvested == s.harvested && s'.pending == s.pending && s'.running
  {
    hide Finished, Watched, CombinePair, Current;
    WatchedShape(plan, env, s, u, PodId(u, 1, Current(plan, s.results, u)));
  }

  lemma NoneMissing(pods: map<PodId, Pod>, u: Unit, n: int)
    requires AllThere(pods, u, n)
    ensures forall rank: nat :: !Needed(pods, u, n, rank)
  {
  }

  lemma PairCloses(plan: Plan, s: Sweep, u: Unit, n: int, s': Sweep)
    requires |u.nodes| == 2 && forall rank: nat :: rank < 2 && Alive(s.pods, PodId(u, rank, n)) ==> PodId(u, rank, n) in s'.kill
    requires u.test < |plan.tests| && PutOnRecord(plan, s, u, n, s')
    requires s'.harvested && s'.ok == s.ok && s'.pods == s.pods && s'.running == s.running && s'.pending == s.pending
    ensures Closes(plan, s, u, n, s')
  {
    hide Alive;
  }

  lemma GroupMoves(plan: Plan, env: Env, s: Sweep, u: Unit)
    requires u.test < |plan.tests| && |u.nodes| >= 2 && plan.tests[u.test].scope == GroupScope
    requires AllThere(s.pods, u, Current(plan, s.results, u))
    ensures VisitMoves(plan, env, s, u, HarvestGroup(plan, env, s, u))
  {
    hide HarvestGroup, Current, VisitMoves, Reported, Deciding, AllThere, TimedOut, Closes, GoesOn, Needed;
    var n := Current(plan, s.results, u);
    RanksRead(plan, s.pods, u, n);
    GroupShape(plan, env, s, u);
    var s' := HarvestGroup(plan, env, s, u);
    var pods := AttemptPods(s.pods, u, n);
    if Reported(plan, s.pods, u, n) {
      EndedCloses(plan, s, u, n, s');
      MovesClosed(plan, env, s, u, s');
    } else if exists id :: id in pods && env.overdue(id) {
      var id :| id in pods && env.overdue(id);
      Expires(plan, env, s.pods, u, n, id.rank);
      AllCloses(plan, s, u, n, s');
      MovesClosed(plan, env, s, u, s');
    } else {
      NoneOverdue(plan, env, s.pods, u, n);
      NoneMissing(s.pods, u, n);
      NothingNeeded(env, s, u, n, s');
      MovesOn(plan, env, s, u, s');
    }
  }

  lemma GroupShape(plan: Plan, env: Env, s: Sweep, u: Unit)
    requires u.test < |plan.tests|
    ensures var s', pods := HarvestGroup(plan, env, s, u), AttemptPods(s.pods, u, Current(plan, s.results, u));
            && s'.ok == s.ok && s'.pods == s.pods && s'.pending == s.pending
            && (if forall id :: id in pods ==> id in s.pods && s.pods[id].Ended()
                then s'.harvested && s'.running == s.running && PutOnRecord(plan, s, u, Current(plan, s.results, u), s')
                else if exists id :: id in pods && env.overdue(id)
                then s'.harvested && s'.running == s.running && pods <= s'.kill && PutOnRecord(plan, s, u, Current(plan, s.results, u), s')
                else s'.harvested == s.harvested && s'.running)
  {
    hide Finished, Watched, Current, HarvestGroup, PutOnRecord;
    var n := Current(plan, s.results, u);
    GroupIs(plan, env, s, u);
    EndedVisit(plan, env, s, s.(kill := s.kill + AttemptPods(s.pods, u, n)), u, MACHINERY_ERROR);
    EndedVisit(plan, env, s, s, u, env.collective(u));
    WatchedShape(plan, env, s, u, PodId(u, 0, n));
  }

  lemma EndedCloses(plan: Plan, s: Sweep, u: Unit, n: int, s': Sweep)
    requires forall id :: id in AttemptPods(s.pods, u, n) ==> s.pods[id].Ended()
    requires u.test < |plan.tests| && PutOnRecord(plan, s, u, n, s')
    requires s'.harvested && s'.ok == s.ok && s'.pods == s.pods && s'.running == s.running && s'.pending == s.pending
    ensures Closes(plan, s, u, n, s')
  {
    forall rank: nat | rank < |u.nodes| && There(s.pods, u, rank, n) ensures !Alive(s.pods, PodId(u, rank, n)) {
      assert PodId(u, rank, n) in AttemptPods(s.pods, u, n);
    }
  }

  /** Counting the nodes of an attempt with a live pod changes nothing a visit to it goes by. */
  lemma ClaimedMoves(plan: Plan, env: Env, s: Sweep, u: Unit, s': Sweep)
    requires u.test < |plan.tests| && |u.nodes| >= 2 && VisitMoves(plan, env, Claimed(plan, s, u), u, s')
    ensures VisitMoves(plan, env, s, u, s')
  {
    hide Current, AnyLive, Reported, TimedOut, Needed, NodeSet;
    var n, t := Current(plan, s.results, u), Claimed(plan, s, u);
    assert t == s.(busy := t.busy) && t.busy + NodeSet(u) == s.busy + NodeSet(u);
    hide Claimed;
    SameRoom(env, s, t, u);
    if !(Reported(plan, s.pods, u, n) || TimedOut(plan, env, s.pods, u, n)) { SameGoesOn(env, s, t, u, n, s'); }
    hide GoesOn;
  }

  lemma SameRoom(env: Env, s: Sweep, t: Sweep, u: Unit)
    requires |u.nodes| >= 2 && t.busy + NodeSet(u) == s.busy + NodeSet(u)
    ensures Room(env, t, u) == Room(env, s, u)
  {
    assert NodeSet(u) == set n | n in u.nodes;
  }

  lemma SameGoesOn(env: Env, s: Sweep, t: Sweep, u: Unit, n: int, s': Sweep)
    requires t == s.(busy := t.busy) && Room(env, t, u) == Room(env, s, u) && GoesOn(env, t, u, n, s')
    ensures GoesOn(env, s, u, n, s')
  {
    hide Room, Needed, AllBuilt, AllAccepted;
  }

  /** What a visit closes, what it starts and what it waits for. */
  lemma VisitDoes(plan: Plan, env: Env, s: Sweep, u: Unit)
    requires UnitOk(plan, u) && !Over(s.results, u)
    ensures VisitMoves(plan, env, s, u, Advance(plan, env, s, u))
  {
    hide AdvanceNode, GateUnit, HarvestPair, HarvestGroup, StartUnit, AnyLive, NodeSet, Current, VisitMoves;
    var n := Current(plan, s.results, u);
    if plan.tests[u.test].scope == NodeScope {
      SingleMoves(plan, env, s, u);
    } else {
      var t := Claimed(plan, s, u);
      ClaimedKeeps(plan, s, u);
      CompleteIsAllThere(s.pods, u, n);
      if !There(s.pods, u, 0, n) {
        StartMoves(plan, env, t, u);
      } else if !AllThere(s.pods, u, n) {
        GateMoves(plan, env, t, u);
      } else if plan.tests[u.test].scope == PairScope {
        CompleteHas(s.pods, u, n);
        PairMoves(plan, env, t, u);
      } else {
        GroupMoves(plan, env, t, u);
      }
      hide Complete, AllThere;
      ClaimedMoves(plan, env, s, u, Advance(plan, env, s, u));
    }
  }
}
