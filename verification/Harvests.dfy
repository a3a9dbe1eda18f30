/**
  Whose report every recorded outcome came from: over one sweep, and over every history of a
  run. And the other way round: no outcome there is to read is left unread by a whole sweep.
*/
module Harvests {
  import opened Base
  import opened Verdict
  import opened Soak
  import opened Attempts
  import opened AttemptHistory
  import opened AttemptVerdict
  import opened Checkpoints
  import opened Execution
  import opened ExecutionFacts
  import opened Visits
  import opened SweepFacts
  import opened Interlock
  import opened SweepOutcome
  import opened RunProtocol
  import opened RunInvariant
  import opened RunLaws
  import opened RunLog

  // ---------------------------------------------------------------- one sweep

  /** An outcome other than an error is what the pods of one attempt amounted to as the sweep began. */
  ghost predicate Warranted(plan: Plan, env: Env, pods: map<PodId, Pod>, u: Unit, e: Event) {
    e.Finish? && !e.parsed.exit.ExitError? ==>
      u.test < |plan.tests| && exists n :: Reported(plan, pods, u, n) && Account(plan, env, pods, u, n, e.parsed)
  }

  ghost predicate AllWarranted(plan: Plan, env: Env, pods: map<PodId, Pod>, log: map<Unit, seq<Event>>) {
    forall u, k :: 0 <= k < |Logged(log, u)| ==> Warranted(plan, env, pods, u, Logged(log, u)[k])
  }

  /** The pods a sweep began with are as they were; those it created have not ended. */
  ghost predicate Onward(pods: map<PodId, Pod>, now: map<PodId, Pod>) {
    forall id :: (id in pods ==> id in now && now[id] == pods[id]) && (id in now && id !in pods ==> now[id] == NEW_POD)
  }

  lemma ReportedBefore(plan: Plan, env: Env, pods: map<PodId, Pod>, now: map<PodId, Pod>, u: Unit, n: int, p: Parsed)
    requires UnitOk(plan, u) && Onward(pods, now) && (|u.nodes| == 1 || now == pods)
    requires Reported(plan, now, u, n) && Account(plan, env, now, u, n, p)
    ensures Reported(plan, pods, u, n) && Account(plan, env, pods, u, n, p)
  {
    if now != pods {
      SingleReads(plan, now, u, n);
      SingleReads(plan, pods, u, n);
      assert EndedAt(now, u, 0, n) ==> EndedAt(pods, u, 0, n);
      hide Reported, LinkReport, OneReport;
    }
  }

  lemma VisitWarranted(plan: Plan, env: Env, pods: map<PodId, Pod>, t: Sweep, u: Unit, t': Sweep)
    requires UnitOk(plan, u) && VisitLogs(plan, env, t, u, t') && Onward(pods, t.pods) && (|u.nodes| == 1 || t.pods == pods)
    requires AllWarranted(plan, env, pods, t.log)
    ensures AllWarranted(plan, env, pods, t'.log)
  {
    var n := Current(plan, t.results, u);
    hide Current, UnitOk, Reported, TimedOut, Unbuilt, Account, Onward, Logged;
    var more: seq<Event> :| Adds(t, t', u, more)
      && if Reported(plan, t.pods, u, n) || TimedOut(plan, env, t.pods, u, n)
         then |more| == 1 && Concludes(plan, env, t.pods, u, n, more[0])
         else NoOutcome(plan, env, t.pods, u, n, more);
    forall k | 0 <= k < |more| ensures Warranted(plan, env, pods, u, more[k]) {
      if more[k].Finish? && !more[k].parsed.exit.ExitError? {
        assert Reported(plan, t.pods, u, n) && Account(plan, env, t.pods, u, n, more[k].parsed);
        ReportedBefore(plan, env, pods, t.pods, u, n, more[k].parsed);
      }
    }
    hide Warranted, NoOutcome, Concludes, Adds;
    MoreWarranted(plan, env, pods, t, t', u, more);
  }

  lemma MoreWarranted(plan: Plan, env: Env, pods: map<PodId, Pod>, t: Sweep, t': Sweep, u: Unit, more: seq<Event>)
    requires AllWarranted(plan, env, pods, t.log) && Adds(t, t', u, more)
    requires forall k :: 0 <= k < |more| ==> Warranted(plan, env, pods, u, more[k])
    ensures AllWarranted(plan, env, pods, t'.log)
  {
    hide Warranted, Logged;
    forall v, k | 0 <= k < |Logged(t'.log, v)| ensures Warranted(plan, env, pods, v, Logged(t'.log, v)[k]) {
      assert Logged(t'.log, v) == Logged(t.log, v) + if v == u then more else [];
      if k < |Logged(t.log, v)| { assert Logged(t'.log, v)[k] == Logged(t.log, v)[k]; }
      else { assert v == u && Logged(t'.log, v)[k] == more[k - |Logged(t.log, v)|]; }
    }
  }

  /** Either one unit, or units of one node each. */
  ghost predicate VisitedOnce(units: seq<Unit>) {
    |units| <= 1 || forall k :: 0 <= k < |units| ==> |units[k].nodes| == 1
  }

  lemma SweptOnward(plan: Plan, env: Env, i: nat, s: Sweep, t: Sweep)
    requires Swept(plan, env, i, s, t)
    ensures Onward(s.pods, t.pods)
  {
    hide SweptResults, SweptKills, SweptNodes, Current, UnitOk, NodeSet;
    forall id | id in t.pods && id !in s.pods ensures t.pods[id] == NEW_POD { assert NewPod(plan, env, i, s, t, id); }
  }

  lemma {:induction false} UnitsWarranted(plan: Plan, env: Env, i: nat, s: Sweep, t: Sweep, units: seq<Unit>)
    requires Swept(plan, env, i, s, t) && OfTest(plan, i, units) && AllWarranted(plan, env, s.pods, t.log)
    requires t.pods == s.pods || forall k :: 0 <= k < |units| ==> |units[k].nodes| == 1
    requires VisitedOnce(units)
    ensures AllWarranted(plan, env, s.pods, SweepUnits(plan, env, t, units).log)
    decreases |units|
  {
    hide Swept, Advance, UnitOk, AllWarranted;
    if units != [] && t.ok {
      var u := units[0];
      assert UnitOk(plan, u) && u.test == i;
      SweptStep(plan, env, i, s, t, u);
      if !Over(t.results, u) {
        SweptOnward(plan, env, i, s, t);
        VisitRecords(plan, env, t, u);
        hide VisitLogs, Onward, Over;
        VisitWarranted(plan, env, s.pods, t, u, Advance(plan, env, t, u));
      }
      hide VisitLogs, Visited, Over;
      assert forall k :: 0 <= k < |units[1..]| ==> units[1..][k] == units[k + 1];
      UnitsWarranted(plan, env, i, s, Advance(plan, env, t, u), units[1..]);
    }
  }

  lemma UnitsVisitedOnce(plan: Plan, i: nat)
    requires i < |plan.tests| && !plan.tests[i].scope.OtherScope?
    ensures VisitedOnce(Units(plan, i))
  {
  }

  /** Every outcome a sweep records, errors apart, was read off pods that had ended as it began. */
  lemma SweepWarranted(plan: Plan, env: Env, a: map<Unit, Result>, pods: map<PodId, Pod>, stamped: set<string>)
    requires PlanOk(plan) && ResultsOk(plan, a)
    ensures AllWarranted(plan, env, pods, Execute(plan, env, a, pods, stamped).log)
  {
    PaddedSelf(plan, a);
    var seed := Seeded(a, pods, stamped);
    assert AllWarranted(plan, env, pods, seed.log);
    var s0 := SweepShape(plan, env, a, seed, 0);
    hide ResultsOk, Padded, ActiveFrom, Halted, UnknownsSettled, LiveNodes, Holding, AllWarranted, SweepUnits, OfTest, Units;
    match ActiveFrom(plan, a, 0)
    case None =>
    case Some(k) =>
      ActiveScope(plan, a, k);
      UnitsVisitedOnce(plan, k);
      SweptNothing(plan, env, k, s0);
      UnitsWarranted(plan, env, k, s0, s0, Units(plan, k));
  }

  lemma ActiveScope(plan: Plan, a: map<Unit, Result>, k: nat)
    requires ActiveFrom(plan, a, 0) == Some(k)
    ensures k < |plan.tests| && !plan.tests[k].scope.OtherScope?
  {
    ActiveNotOver(plan, a, 0, k);
  }

  // ---------------------------------------------------------------- nothing to read is left unread

  /** The attempt this unit was on is over, on record, and none of its pods still alive is spared. */
  ghost predicate PutAway(pods: map<PodId, Pod>, u: Unit, n: int, s: Sweep) {
    && u in s.results && NextNumber(s.results[u].attempts) > n
    && forall rank: nat :: rank < |u.nodes| && Alive(pods, PodId(u, rank, n)) ==> PodId(u, rank, n) in s.kill
  }

  ghost predicate Due(plan: Plan, env: Env, t: Sweep, u: Unit, n: int)
    requires u.test < |plan.tests|
  {
    !Over(t.results, u) && Current(plan, t.results, u) == n && (Reported(plan, t.pods, u, n) || TimedOut(plan, env, t.pods, u, n))
  }

  /** A visit to one unit leaves what is due of another as it is. */
  lemma OtherStaysDue(plan: Plan, env: Env, t: Sweep, v: Unit, t': Sweep, u: Unit, n: int)
    requires v.test < |plan.tests| && u.test < |plan.tests| && v != u && Visited(plan, env, t, v, t') && Due(plan, env, t, u, n)
    ensures Due(plan, env, t', u, n)
  {
    hide ResultOk, BusyGrows, KillsGrow, NextNumber, New;
    assert u in t'.results <==> u in t.results;
    forall rank: nat
      ensures There(t'.pods, u, rank, n) <==> There(t.pods, u, rank, n)
      ensures There(t.pods, u, rank, n) ==> t'.pods[PodId(u, rank, n)] == t.pods[PodId(u, rank, n)]
    {
      var id := PodId(u, rank, n);
      assert id in t'.pods && id !in t.pods ==> MayCreate(plan, env, t, v, t', id);
    }
    hide Moved, PodsGrow;
    SameReports(plan, env, t.pods, t'.pods, u, n);
  }

  lemma SameReports(plan: Plan, env: Env, pods: map<PodId, Pod>, now: map<PodId, Pod>, u: Unit, n: int)
    requires u.test < |plan.tests|
    requires forall rank: nat :: There(now, u, rank, n) <==> There(pods, u, rank, n)
    requires forall rank: nat :: There(pods, u, rank, n) ==> There(now, u, rank, n) && now[PodId(u, rank, n)] == pods[PodId(u, rank, n)]
    ensures Reported(plan, now, u, n) <==> Reported(plan, pods, u, n)
    ensures TimedOut(plan, env, now, u, n) <==> TimedOut(plan, env, pods, u, n)
  {
    assert AllThere(now, u, n) <==> AllThere(pods, u, n);
    forall rank: nat ensures EndedAt(now, u, rank, n) <==> EndedAt(pods, u, rank, n) { assert There(now, u, rank, n) <==> There(pods, u, rank, n); }
    forall rank: nat ensures Deciding(plan, now, u, n, rank) <==> Deciding(plan, pods, u, n, rank) {}
    hide There, EndedAt, AllThere, Deciding;
    assert Reported(plan, now, u, n) <==> Reported(plan, pods, u, n) by { SameDecided(plan, pods, now, u, n); }
  }

  lemma SameDecided(plan: Plan, pods: map<PodId, Pod>, now: map<PodId, Pod>, u: Unit, n: int)
    requires u.test < |plan.tests| && (There(now, u, 0, n) <==> There(pods, u, 0, n))
    requires forall rank: nat :: Deciding(plan, now, u, n, rank) <==> Deciding(plan, pods, u, n, rank)
    requires forall rank: nat :: EndedAt(now, u, rank, n) <==> EndedAt(pods, u, rank, n)
    ensures Reported(plan, now, u, n) <==> Reported(plan, pods, u, n)
  {
    hide There, EndedAt, Deciding;
  }

  /** The visit that finds it due puts it away. */
  lemma DuePutAway(plan: Plan, env: Env, t: Sweep, u: Unit, n: int)
    requires UnitOk(plan, u) && ResultsOk(plan, t.results) && Due(plan, env, t, u, n)
    ensures PutAway(t.pods, u, n, Advance(plan, env, t, u))
  {
    ReadyInResults(plan, t.results, u);
    VisitDoes(plan, env, t, u);
    hide Advance, Reported, TimedOut, Current, Ready, Alive, GoesOn, UnitOk, ResultsOk, Over;
  }

  lemma StaysAway(plan: Plan, env: Env, i: nat, pods: map<PodId, Pod>, t: Sweep, end: Sweep, u: Unit, n: int)
    requires UnitOk(plan, u) && Swept(plan, env, i, t, end) && PutAway(pods, u, n, t)
    ensures PutAway(pods, u, n, end)
  {
    hide SweptPods, SweptNodes, ResultsOk, NextNumber, Alive, SweepFacts.Condemned;
    assert Current(plan, end.results, u) >= Current(plan, t.results, u);
  }

  lemma MorePodsPutAway(pods: map<PodId, Pod>, now: map<PodId, Pod>, u: Unit, n: int, s: Sweep)
    requires (forall id :: id in pods ==> id in now && now[id] == pods[id]) && PutAway(now, u, n, s)
    ensures PutAway(pods, u, n, s)
  {
  }

  lemma SweptHasResults(plan: Plan, env: Env, i: nat, s: Sweep, t: Sweep)
    requires Swept(plan, env, i, s, t)
    ensures ResultsOk(plan, t.results)
  {
  }

  lemma {:induction false} UnitsPutAway(plan: Plan, env: Env, i: nat, s: Sweep, t: Sweep, units: seq<Unit>, u: Unit, n: int)
    requires Swept(plan, env, i, s, t) && OfTest(plan, i, units) && u in units && SweepUnits(plan, env, t, units).ok
    requires u.test < |plan.tests| && Due(plan, env, t, u, n)
    ensures PutAway(t.pods, u, n, SweepUnits(plan, env, t, units))
    decreases |units|
  {
    hide Swept, Advance, UnitOk, Due, Visited, PutAway, ResultsOk, Over;
    var v := units[0];
    assert UnitOk(plan, v) && v.test == i && t.ok;
    SweptHasResults(plan, env, i, s, t);
    SweptStep(plan, env, i, s, t, v);
    var t', rest := Advance(plan, env, t, v), units[1..];
    assert SweepUnits(plan, env, t, units) == SweepUnits(plan, env, t', rest);
    if v == u {
      DuePutAway(plan, env, t, u, n);
      SweptHasResults(plan, env, i, s, t');
      SweptNothing(plan, env, i, t');
      UnitsSwept(plan, env, i, t', t', rest);
      StaysAway(plan, env, i, t.pods, t', SweepUnits(plan, env, t', rest), u, n);
    } else {
      assert u in rest;
      if !Over(t.results, v) {
        OtherStaysDue(plan, env, t, v, t', u, n);
        VisitedPods(plan, env, t, v, t');
      }
      UnitsPutAway(plan, env, i, s, t', rest, u, n);
      MorePodsPutAway(t.pods, t'.pods, u, n, SweepUnits(plan, env, t', rest));
    }
  }

  lemma VisitedPods(plan: Plan, env: Env, t: Sweep, v: Unit, t': Sweep)
    requires v.test < |plan.tests| && Visited(plan, env, t, v, t')
    ensures forall id :: id in t.pods ==> id in t'.pods && t'.pods[id] == t.pods[id]
  {
  }

  /**
    A sweep that gets to its end leaves no outcome unread. Of the test it works on, every unit
    whose attempt had been reported, or had run out of time, as the sweep began has that
    attempt on record as over, and every pod of it still alive is condemned.
  */
  lemma NothingLeftUnread(plan: Plan, env: Env, a: map<Unit, Result>, pods: map<PodId, Pod>, stamped: set<string>, k: nat, u: Unit)
    requires PlanOk(plan) && ResultsOk(plan, a) && ActiveFrom(plan, a, 0) == Some(k) && k < |plan.tests| && u in Units(plan, k)
    requires u.test < |plan.tests| && !Over(a, u)
    requires var n := Current(plan, a, u); Reported(plan, pods, u, n) || TimedOut(plan, env, pods, u, n)
    ensures var s := Execute(plan, env, a, pods, stamped);
            s.ok ==> PutAway(pods, u, Current(plan, a, u), s)
  {
    PaddedSelf(plan, a);
    var seed := Seeded(a, pods, stamped);
    var s0 := SweepShape(plan, env, a, seed, 0);
    ActiveScope(plan, a, k);
    UnitsOk(plan, k);
    assert UnitOk(plan, u);
    PaddedUnit(plan, a, s0.results, u);
    assert Due(plan, env, s0, u, Current(plan, a, u));
    SweptNothing(plan, env, k, s0);
    hide ResultsOk, Padded, ActiveFrom, Halted, UnknownsSettled, LiveNodes, Holding, SweepUnits, Units, Due, PutAway, Reported, TimedOut, Current, UnitOk, Swept, Over;
    if SweepUnits(plan, env, s0, Units(plan, k)).ok {
      UnitsPutAway(plan, env, k, s0, s0, Units(plan, k), u, Current(plan, a, u));
    }
  }

  // ---------------------------------------------------------------- a drain waits for what is running

  /** The attempt has a pod, no outcome yet, and does not wait for a pod it may not start. */
  ghost predicate UnderWay(plan: Plan, env: Env, pods: map<PodId, Pod>, u: Unit, n: int)
    requires u.test < |plan.tests|
  {
    && There(pods, u, 0, n) && !Reported(plan, pods, u, n) && !TimedOut(plan, env, pods, u, n)
    && forall rank: nat :: !Needed(pods, u, n, rank)
  }

  ghost predicate Engaged(plan: Plan, env: Env, t: Sweep, u: Unit, n: int)
    requires u.test < |plan.tests|
  {
    !Over(t.results, u) && Current(plan, t.results, u) == n && UnderWay(plan, env, t.pods, u, n)
  }

  lemma OtherStaysEngaged(plan: Plan, env: Env, t: Sweep, v: Unit, t': Sweep, u: Unit, n: int)
    requires v.test < |plan.tests| && u.test < |plan.tests| && v != u && Visited(plan, env, t, v, t') && Engaged(plan, env, t, u, n)
    ensures Engaged(plan, env, t', u, n)
  {
    hide ResultOk, BusyGrows, KillsGrow, NextNumber, New;
    assert u in t'.results <==> u in t.results;
    forall rank: nat
      ensures There(t'.pods, u, rank, n) <==> There(t.pods, u, rank, n)
      ensures There(t.pods, u, rank, n) ==> t'.pods[PodId(u, rank, n)] == t.pods[PodId(u, rank, n)]
    {
      var id := PodId(u, rank, n);
      assert id in t'.pods && id !in t.pods ==> MayCreate(plan, env, t, v, t', id);
    }
    hide Moved, PodsGrow;
    SameReports(plan, env, t.pods, t'.pods, u, n);
    hide Reported, TimedOut;
    forall rank: nat ensures !Needed(t'.pods, u, n, rank) { assert !Needed(t.pods, u, n, rank); }
  }

  /** Running once, running to the end of the sweep. */
  lemma RunningStays(plan: Plan, env: Env, t: Sweep, u: Unit)
    requires UnitOk(plan, u) && !Over(t.results, u) && t.running
    ensures Advance(plan, env, t, u).running
  {
    VisitDoes(plan, env, t, u);
    hide Advance, Reported, TimedOut, Current, UnitOk, Over, Blocked, AllBuilt, AllAccepted, Created;
  }

  lemma EngagedRuns(plan: Plan, env: Env, t: Sweep, u: Unit, n: int)
    requires UnitOk(plan, u) && Engaged(plan, env, t, u, n)
    ensures Advance(plan, env, t, u).running
  {
    VisitDoes(plan, env, t, u);
    hide Advance, Reported, TimedOut, Current, UnitOk, Over, Needed, Created;
  }

  lemma {:induction false} UnitsRun(plan: Plan, env: Env, i: nat, s: Sweep, t: Sweep, units: seq<Unit>, u: Unit, n: int)
    requires Swept(plan, env, i, s, t) && OfTest(plan, i, units) && SweepUnits(plan, env, t, units).ok && u.test < |plan.tests|
    requires t.running || (u in units && Engaged(plan, env, t, u, n))
    ensures SweepUnits(plan, env, t, units).running
    decreases |units|
  {
    hide Swept, Advance, UnitOk, Engaged, Visited, Over;
    if units != [] && t.ok {
      var v := units[0];
      assert UnitOk(plan, v) && v.test == i;
      SweptStep(plan, env, i, s, t, v);
      var t', rest := Advance(plan, env, t, v), units[1..];
      if t.running {
        if !Over(t.results, v) { RunningStays(plan, env, t, v); }
      } else if v == u {
        EngagedRuns(plan, env, t, u, n);
      } else {
        assert u in rest;
        if !Over(t.results, v) { OtherStaysEngaged(plan, env, t, v, t', u, n); }
      }
      UnitsRun(plan, env, i, s, t', rest, u, n);
    }
  }

  lemma SweepRuns(plan: Plan, env: Env, a: map<Unit, Result>, pods: map<PodId, Pod>, stamped: set<string>, k: nat, u: Unit)
    requires PlanOk(plan) && ResultsOk(plan, a) && ActiveFrom(plan, a, 0) == Some(k) && k < |plan.tests| && u in Units(plan, k)
    requires u.test < |plan.tests| && !Over(a, u) && UnderWay(plan, env, pods, u, Current(plan, a, u))
    ensures var s := Execute(plan, env, a, pods, stamped); s.ok ==> s.running
  {
    PaddedSelf(plan, a);
    var seed := Seeded(a, pods, stamped);
    var s0 := SweepShape(plan, env, a, seed, 0);
    ActiveScope(plan, a, k);
    UnitsOk(plan, k);
    assert UnitOk(plan, u);
    PaddedUnit(plan, a, s0.results, u);
    assert Engaged(plan, env, s0, u, Current(plan, a, u));
    SweptNothing(plan, env, k, s0);
    hide ResultsOk, Padded, ActiveFrom, Halted, UnknownsSettled, LiveNodes, Holding, SweepUnits, Units, Engaged, UnderWay, Current, UnitOk, Swept, Over;
    if SweepUnits(plan, env, s0, Units(plan, k)).ok {
      UnitsRun(plan, env, k, s0, s0, Units(plan, k), u, Current(plan, a, u));
    }
  }

  /**
    A graceful drain waits. In every reachable state, while the test the run is on has an
    attempt under way, no drain but an immediate one ends the run.
  */
  lemma DrainWaits(plan: Plan, existing: set<string>, trace: seq<Action>, a: Action, k: nat, u: Unit)
    requires PlanOk(plan) && Possible(plan, Begun(existing), trace) && Enabled(plan, RunProtocol.After(plan, Begun(existing), trace), a)
    requires a.Drain? && !a.immediate && k < |plan.tests| && u in Units(plan, k) && u.test < |plan.tests|
    requires var st := RunProtocol.After(plan, Begun(existing), trace);
             ActiveFrom(plan, st.results, 0) == Some(k) && !Over(st.results, u) && UnderWay(plan, a.env, st.pods, u, Current(plan, st.results, u))
    ensures !Apply(plan, RunProtocol.After(plan, Begun(existing), trace), a).phase.Terminal()
  {
    ReachableInv(plan, existing, trace);
    var st := RunProtocol.After(plan, Begun(existing), trace);
    hide RunProtocol.After, Possible, Inv, ResultsOk, UnderWay, ActiveFrom, Over, Enabled, Apply, Execute;
    OpenState(plan, st, a);
    SweepRuns(plan, a.env, st.results, st.pods, st.stamped, k, u);
    DrainStays(plan, st, a);
  }

  lemma OpenState(plan: Plan, st: State, a: Action)
    requires PlanOk(plan) && Inv(plan, st) && a.Drain? && Enabled(plan, st, a)
    ensures ResultsOk(plan, st.results) && st.phase.Running?
  {
    hide Execute, PassEnabled, DrainEnds, Guarded, KillsRecorded;
  }

  lemma DrainStays(plan: Plan, st: State, a: Action)
    requires PlanOk(plan) && a.Drain? && !a.immediate && st.phase.Running? && (Sweeping(plan, st, a.env).ok ==> Sweeping(plan, st, a.env).running)
    ensures Apply(plan, st, a).phase == st.phase
  {
    hide Sweeping, Extended, Conceded, CutAll, SettleRemaining;
  }

  // ---------------------------------------------------------------- over every history

  /** At this point of the run a pass or drain read this outcome off the pods as they then were. */
  ghost predicate ReadAt(plan: Plan, st: State, a: Action, u: Unit, e: Event) {
    (a.Pass? || a.Drain?) && Warranted(plan, a.env, st.pods, u, e)
  }

  ghost predicate Read(plan: Plan, st: State, trace: seq<Action>, u: Unit, e: Event)
    requires PlanOk(plan)
  {
    exists i :: 0 <= i < |trace| && ReadAt(plan, RunProtocol.After(plan, st, trace[..i]), trace[i], u, e)
  }

  lemma ReadLater(plan: Plan, st: State, trace: seq<Action>, u: Unit, e: Event)
    requires PlanOk(plan) && trace != [] && Read(plan, Apply(plan, st, trace[0]), trace[1..], u, e)
    ensures Read(plan, st, trace, u, e)
  {
    hide ReadAt, Apply;
    var next, rest := Apply(plan, st, trace[0]), trace[1..];
    var i :| 0 <= i < |rest| && ReadAt(plan, RunProtocol.After(plan, next, rest[..i]), rest[i], u, e);
    assert trace[..i + 1][0] == trace[0] && trace[..i + 1][1..] == rest[..i];
    assert RunProtocol.After(plan, st, trace[..i + 1]) == RunProtocol.After(plan, next, rest[..i]);
    assert rest[i] == trace[i + 1];
  }

  lemma ReadNow(plan: Plan, st: State, trace: seq<Action>, u: Unit, e: Event)
    requires PlanOk(plan) && trace != [] && ReadAt(plan, st, trace[0], u, e)
    ensures Read(plan, st, trace, u, e)
  {
    hide ReadAt, Apply;
    assert RunProtocol.After(plan, st, trace[..0]) == st;
  }

  /** What a step adds to the log it has read. */
  ghost predicate StepReads(plan: Plan, st: State, a: Action, t: State) {
    forall u :: Logged(st.log, u) <= Logged(t.log, u)
      && forall k :: |Logged(st.log, u)| <= k < |Logged(t.log, u)| ==> ReadAt(plan, st, a, u, Logged(t.log, u)[k])
  }

  lemma ExtendedLogged(log: map<Unit, seq<Event>>, more: map<Unit, seq<Event>>, u: Unit)
    ensures Logged(Extended(log, more), u) == Logged(log, u) + Logged(more, u)
  {
  }

  lemma StepIsRead(plan: Plan, st: State, a: Action)
    requires PlanOk(plan) && Inv(plan, st) && Enabled(plan, st, a)
    ensures StepReads(plan, st, a, Apply(plan, st, a))
  {
    var t := Apply(plan, st, a);
    if a.Pass? || a.Drain? {
      assert Sound(plan, st.results, st.pods);
      SweepWarranted(plan, a.env, st.results, st.pods, st.stamped);
      var s := Sweeping(plan, st, a.env);
      assert t.log == st.log || t.log == Extended(st.log, s.log) by { PassLogs(plan, st, a); }
      hide Apply, Enabled, Inv, Sweeping, Execute, Warranted, Logged, Sound;
      forall u ensures Logged(st.log, u) <= Logged(t.log, u)
      ensures forall k :: |Logged(st.log, u)| <= k < |Logged(t.log, u)| ==> ReadAt(plan, st, a, u, Logged(t.log, u)[k]) {
        ExtendedLogged(st.log, s.log, u);
        if t.log != st.log {
          forall k | |Logged(st.log, u)| <= k < |Logged(t.log, u)| ensures ReadAt(plan, st, a, u, Logged(t.log, u)[k]) {
            assert Logged(t.log, u)[k] == Logged(s.log, u)[k - |Logged(st.log, u)|];
          }
        }
      }
    } else {
      assert t.log == st.log by { QuietLogs(plan, st, a); }
      hide Apply, Enabled, Inv, Logged, ReadAt;
    }
  }

  lemma PassLogs(plan: Plan, st: State, a: Action)
    requires PlanOk(plan) && (a.Pass? || a.Drain?)
    ensures var t := Apply(plan, st, a); t.log == st.log || t.log == Extended(st.log, Sweeping(plan, st, a.env).log)
  {
    hide AfterPass, AfterDrain, Sweeping, Extended, FateOf, DrainEnds;
    var s := Sweeping(plan, st, a.env);
    match a
    case Pass(env, commit, kills, released) => FateLogs(plan, st, s, FateOf(s, env.launch, commit), kills, released);
    case Drain(env, immediate, dirty, commit, kills, released) =>
      DrainLogs(plan, st, s, DrainEnds(s, immediate, dirty, commit), commit, kills, released);
  }

  lemma FateLogs(plan: Plan, st: State, s: Sweep, fate: Fate, kills: set<PodId>, released: set<string>)
    ensures var t := AfterPass(plan, st, s, fate, kills, released); t.log == st.log || t.log == Extended(st.log, s.log)
  {
    hide Extended, Conceded, CutAll, FinalPhase;
  }

  lemma DrainLogs(plan: Plan, st: State, s: Sweep, ends: bool, commit: bool, kills: set<PodId>, released: set<string>)
    ensures var t := AfterDrain(plan, st, s, ends, commit, kills, released); t.log == st.log || t.log == Extended(st.log, s.log)
  {
    hide Extended, Conceded, CutAll, SettleRemaining;
  }

  lemma QuietLogs(plan: Plan, st: State, a: Action)
    requires PlanOk(plan) && !a.Pass? && !a.Drain?
    ensures Apply(plan, st, a).log == st.log
  {
    hide Sweeping, Extended, Conceded, CutAll, SettleRemaining;
  }

  lemma {:induction false} TraceIsRead(plan: Plan, st: State, trace: seq<Action>, u: Unit)
    requires PlanOk(plan) && Inv(plan, st) && Possible(plan, st, trace)
    ensures var end := RunProtocol.After(plan, st, trace);
            && Logged(st.log, u) <= Logged(end.log, u)
            && forall k :: |Logged(st.log, u)| <= k < |Logged(end.log, u)| ==> Read(plan, st, trace, u, Logged(end.log, u)[k])
    decreases |trace|
  {
    if trace != [] {
      var next := Apply(plan, st, trace[0]);
      RunInvariant.StepKeeps(plan, st, trace[0]);
      StepIsRead(plan, st, trace[0]);
      hide Inv, Enabled, Apply, ReadAt, Logged, Read;
      TraceIsRead(plan, next, trace[1..], u);
      var end := RunProtocol.After(plan, next, trace[1..]);
      assert Logged(st.log, u) <= Logged(next.log, u);
      forall k | |Logged(st.log, u)| <= k < |Logged(end.log, u)| ensures Read(plan, st, trace, u, Logged(end.log, u)[k]) {
        if k < |Logged(next.log, u)| {
          assert Logged(end.log, u)[k] == Logged(next.log, u)[k];
          ReadNow(plan, st, trace, u, Logged(end.log, u)[k]);
        } else {
          ReadLater(plan, st, trace, u, Logged(end.log, u)[k]);
        }
      }
    }
  }

  /**
    In every history each durable outcome, errors apart, was read by a pass of that history off
    pods of one attempt that had ended by then, and is what their reports amounted to.
  */
  lemma OutcomesAreRead(plan: Plan, existing: set<string>, trace: seq<Action>, u: Unit, k: nat)
    requires PlanOk(plan) && Possible(plan, Begun(existing), trace)
    requires k < |Logged(RunProtocol.After(plan, Begun(existing), trace).log, u)|
    ensures Read(plan, Begun(existing), trace, u, Logged(RunProtocol.After(plan, Begun(existing), trace).log, u)[k])
  {
    BegunInv(plan, existing);
    TraceIsRead(plan, Begun(existing), trace, u);
  }

  /** The pods this unit's pass rests on, as some pass of the run found them. */
  ghost predicate SawPass(plan: Plan, env: Env, pods: map<PodId, Pod>, u: Unit, n: int)
    requires u.test < |plan.tests|
  {
    match plan.tests[u.test].scope
    case PairScope =>
      && EndedAt(pods, u, 1, n) && env.report(PodId(u, 1, n)).parsed.exit == ExitPass
      && (EndedAt(pods, u, 0, n) ==> env.report(PodId(u, 0, n)).parsed.exit == ExitPass)
    case GroupScope =>
      && env.collective(u).exit == ExitPass && EndedAt(pods, u, 0, n)
      && (AllThere(pods, u, n) ==> forall rank: nat :: rank < |u.nodes| ==> EndedAt(pods, u, rank, n))
    case _ => EndedAt(pods, u, 0, n) && env.report(PodId(u, 0, n)).parsed.exit == ExitPass
  }

  lemma PassIsSeen(plan: Plan, env: Env, pods: map<PodId, Pod>, u: Unit, n: int, p: Parsed)
    requires UnitOk(plan, u) && Reported(plan, pods, u, n) && Account(plan, env, pods, u, n, p) && p.exit == ExitPass
    ensures SawPass(plan, env, pods, u, n)
  {
    match plan.tests[u.test].scope
    case PairScope =>
      if AllThere(pods, u, n) { ClientReads(plan, pods, u, n); } else { FirstReads(plan, pods, u, n); }
    case GroupScope =>
      if AllThere(pods, u, n) {
        forall rank: nat | rank < |u.nodes| ensures EndedAt(pods, u, rank, n) { assert Deciding(plan, pods, u, n, rank); }
      } else {
        FirstReads(plan, pods, u, n);
      }
    case _ => SingleReads(plan, pods, u, n);
  }

  /**
    Nothing passes on less. Every passing report a run has durably recorded for a unit was
    read by one of its passes: of a pair the client's pod had ended and reported a pass, and
    the server's, if it had ended, one too; of a single node its own pod; of a group the first
    rank had ended, with all the others if they existed, and the ranks together reported one.
  */
  lemma PassesWereSeen(plan: Plan, existing: set<string>, trace: seq<Action>, u: Unit, k: nat)
    requires PlanOk(plan) && Possible(plan, Begun(existing), trace) && UnitOk(plan, u)
    requires var log := RunProtocol.After(plan, Begun(existing), trace).log;
             k < |Logged(log, u)| && Logged(log, u)[k].Finish? && Logged(log, u)[k].parsed.exit == ExitPass
    ensures exists i, n :: 0 <= i < |trace| && (trace[i].Pass? || trace[i].Drain?)
                           && SawPass(plan, trace[i].env, RunProtocol.After(plan, Begun(existing), trace[..i]).pods, u, n)
  {
    OutcomesAreRead(plan, existing, trace, u, k);
    var e := Logged(RunProtocol.After(plan, Begun(existing), trace).log, u)[k];
    hide RunProtocol.After, Possible, Reported, Account, SawPass, UnitOk;
    var i :| 0 <= i < |trace| && ReadAt(plan, RunProtocol.After(plan, Begun(existing), trace[..i]), trace[i], u, e);
    var pods := RunProtocol.After(plan, Begun(existing), trace[..i]).pods;
    var n :| Reported(plan, pods, u, n) && Account(plan, trace[i].env, pods, u, n, e.parsed);
    PassIsSeen(plan, trace[i].env, pods, u, n, e.parsed);
  }

  lemma {:induction false} OutcomesFrom(es: seq<Event>, p: Parsed)
    requires p in Outcomes(es)
    ensures exists k :: 0 <= k < |es| && es[k].Finish? && es[k].parsed == p
    decreases |es|
  {
    var n := |es| - 1;
    if p in Outcomes(es[..n]) {
      OutcomesFrom(es[..n], p);
      var k :| 0 <= k < n && es[..n][k].Finish? && es[..n][k].parsed == p;
      assert es[k] == es[..n][k];
    } else {
      assert es[n].Finish? && es[n].parsed == p;
    }
  }

  lemma {:induction false} SomePassed(test: Test, ps: seq<Parsed>)
    requires Count(test, ps, Passed) > 0
    ensures exists p :: p in ps && p.exit == ExitPass
  {
    var n := |ps| - 1;
    OutcomeExactly(test, ps[n]);
    hide OutcomePhase;
    if OutcomePhase(test, ps[n]) == Passed {
      assert ps[n] in ps;
    } else {
      SomePassed(test, ps[..n]);
      var p :| p in ps[..n] && p.exit == ExitPass;
      assert p in ps;
    }
  }

  lemma GroundsPassed(plan: Plan, log: map<Unit, seq<Event>>, u: Unit)
    requires HasGrounds(plan, log, u)
    ensures exists k :: 0 <= k < |Logged(log, u)| && Logged(log, u)[k].Finish? && Logged(log, u)[k].parsed.exit == ExitPass
  {
    var test := plan.tests[u.test].test;
    var k :| 0 <= k <= |log[u]| && Grounds(plan.rules, test, Outcomes(log[u][..k]));
    var ps := Outcomes(log[u][..k]);
    if SegmentsRequired(test.soak) > 0 {
      SomePassed(test, ps);
    } else {
      var cleared := set i | 0 <= i < |ps| && Cleared(test, ps[i]);
      assert |cleared| >= 1;
      var i :| i in cleared;
      assert ps[i] in ps;
    }
    var p :| p in ps && p.exit == ExitPass;
    OutcomesFrom(log[u][..k], p);
    var j :| 0 <= j < k && log[u][..k][j].Finish? && log[u][..k][j].parsed == p;
    assert Logged(log, u)[j] == log[u][..k][j];
  }

  /** So a run that ends Passed saw, for every verdict a required test owes and that was not a skip, the pass itself. */
  lemma PassedRunSawEveryPass(plan: Plan, existing: set<string>, trace: seq<Action>, u: Unit)
    requires PlanOk(plan) && Possible(plan, Begun(existing), trace) && UnitOk(plan, u) && plan.tests[u.test].required
    requires RunProtocol.After(plan, Begun(existing), trace).phase == Passed
    ensures var st := RunProtocol.After(plan, Begun(existing), trace);
            u in st.results && (st.results[u].phase == Skipped || st.results[u].phase == Passed)
    ensures RunProtocol.After(plan, Begun(existing), trace).results[u].phase == Passed ==>
              exists i, n :: 0 <= i < |trace| && (trace[i].Pass? || trace[i].Drain?)
                             && SawPass(plan, trace[i].env, RunProtocol.After(plan, Begun(existing), trace[..i]).pods, u, n)
  {
    PassedRestsOnHarvests(plan, existing, trace);
    var st := RunProtocol.After(plan, Begun(existing), trace);
    hide RunProtocol.After, Possible, SawPass, HasGrounds, UnitOk, Derived;
    if st.results[u].phase == Passed {
      GroundsPassed(plan, st.log, u);
      var k :| 0 <= k < |Logged(st.log, u)| && Logged(st.log, u)[k].Finish? && Logged(st.log, u)[k].parsed.exit == ExitPass;
      PassesWereSeen(plan, existing, trace, u, k);
    }
  }
}
