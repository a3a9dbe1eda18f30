/**
  One sweep of a pinned plan: which execution of which test moves, which pods it
  creates, harvests or condemns, and which nodes the run is then holding.
*/
module Execution {
  import opened Base
  import opened Verdict
  import opened Soak
  import opened Attempts
  import opened AttemptHistory

  // ---------------------------------------------------------------- the plan

  datatype Scope = NodeScope | PairScope | GroupScope | OtherScope

  /** speaksGroup: the test names its own runner image, or is of a kind whose shipped image speaks the group contract. */
  datatype Planned = Planned(name: string, required: bool, scope: Scope, test: Test, speaksGroup: bool)

  /** rules says how each metric combines across windows; it is the same for every run. */
  datatype Plan = Plan(tests: seq<Planned>, targets: seq<string>, failFast: bool, rules: Rules)

  /** One verdict owed: a test on a node, on the link of a pair, or on a whole group. */
  datatype Unit = Unit(test: nat, nodes: seq<string>)

  function Singles(i: nat, targets: seq<string>): (us: seq<Unit>)
    ensures |us| == |targets|
    ensures forall k :: 0 <= k < |us| ==> us[k] == Unit(i, [targets[k]])
  {
    if targets == [] then [] else [Unit(i, [targets[0]])] + Singles(i, targets[1..])
  }

  /** executionUnits: how many verdicts a test owes. */
  function Units(plan: Plan, i: nat): seq<Unit>
    requires i < |plan.tests|
  {
    match plan.tests[i].scope
    case PairScope => [Unit(i, plan.targets)]
    case GroupScope => [Unit(i, plan.targets)]
    case _ => Singles(i, plan.targets)
  }

  predicate Distinct<T(==)>(s: seq<T>) {
    forall i, j :: 0 <= i < j < |s| ==> s[i] != s[j]
  }

  /** validateTopology. */
  predicate TopologyOk(t: Planned, targets: seq<string>, cap: int) {
    match t.scope
    case PairScope => |targets| == 2 && Distinct(targets) && cap >= 2
    case GroupScope => |targets| >= 2 && Distinct(targets) && t.speaksGroup && cap >= |targets|
    case _ => true
  }

  // ---------------------------------------------------------------- pods

  /** Pod names are an injective function of these. */
  datatype PodId = PodId(unit: Unit, rank: nat, attempt: int) {
    function Node(): string {
      if rank < |unit.nodes| then unit.nodes[rank] else ""
    }
  }

  datatype PodPhase = PodPending | PodRunning | PodSucceeded | PodFailed

  datatype Pod = Pod(phase: PodPhase, hasStart: bool, readyCondition: bool, exitRecorded: bool) {
    predicate Live() { !phase.PodSucceeded? && !phase.PodFailed? }
    predicate Started() { hasStart || !phase.PodPending? }
    predicate Ready() { phase.PodRunning? && readyCondition }
    predicate Ended() { phase.PodFailed? || (phase.PodSucceeded? && exitRecorded) }
  }

  const NEW_POD := Pod(PodPending, false, false, false)

  /** A terminated pod's report, and whether its log could not be read. */
  datatype Harvest = Harvest(parsed: Parsed, logLost: bool)

  /**
    Everything a sweep is told by its configuration, its clock and the cluster. A node is
    claimable when it exists and carries no other owner's stamp: cordoning succeeds on any
    other node too, and leaves it as it is.
  */
  datatype Env = Env(
    launch: bool,
    cap: int,
    limit: int,
    now: int,
    claimable: set<string>,
    builds: PodId -> bool,
    cordons: string -> bool,
    creates: PodId -> bool,
    overdue: PodId -> bool,
    report: PodId -> Harvest,
    collective: Unit -> Parsed,
    sample: PodId -> Option<Metrics>
  )

  // ---------------------------------------------------------------- a sweep in progress

  /**
    An API error abandons the sweep: ok turns false and what it held in memory is lost.
    log keeps, for each unit, what this sweep did to its result.
  */
  datatype Sweep = Sweep(
    results: map<Unit, Result>,
    pods: map<PodId, Pod>,
    busy: set<string>,
    stamped: set<string>,
    kill: set<PodId>,
    running: bool,
    pending: bool,
    harvested: bool,
    ok: bool,
    log: map<Unit, seq<Event>>
  ) {
    predicate Idle() { ok && !running && !pending && !harvested }
  }

  predicate Over(results: map<Unit, Result>, u: Unit) {
    u in results && results[u].phase.Terminal()
  }

  function Get(plan: Plan, results: map<Unit, Result>, u: Unit): Result
    requires u.test < |plan.tests|
  {
    if u in results then results[u] else New(plan.tests[u.test].test)
  }

  /** The attempt an execution is on. */
  function Current(plan: Plan, results: map<Unit, Result>, u: Unit): int
    requires u.test < |plan.tests|
  {
    NextNumber(Get(plan, results, u).attempts)
  }

  function NodeSet(u: Unit): set<string> {
    set n | n in u.nodes
  }

  function LiveNodes(pods: map<PodId, Pod>): set<string> {
    set id | id in pods && pods[id].Live() :: id.Node()
  }

  /** holdingNodes: the nodes held between pods. */
  function Holding(results: map<Unit, Result>): set<string> {
    set u, n | u in results && !results[u].phase.Terminal() && n in u.nodes :: n
  }

  function Logged(log: map<Unit, seq<Event>>, u: Unit): seq<Event> {
    if u in log then log[u] else []
  }

  function Played(plan: Plan, env: Env, s: Sweep, u: Unit, e: Event): Sweep
    requires u.test < |plan.tests|
  {
    s.(results := s.results[u := Step(plan.rules, plan.tests[u.test].test, Get(plan, s.results, u), e)],
       log := s.log[u := Logged(s.log, u) + [e]])
  }

  const MACHINERY_ERROR := Parsed(ExitError, map[], {}, 0)

  function Finished(plan: Plan, env: Env, s: Sweep, u: Unit, parsed: Parsed): Sweep
    requires u.test < |plan.tests|
  {
    Played(plan, env, s, u, Finish(parsed, env.limit)).(harvested := true)
  }

  /** Open the attempt and publish a sample when one is due. */
  function Watched(plan: Plan, env: Env, s: Sweep, u: Unit, id: PodId): Sweep
    requires u.test < |plan.tests|
  {
    var begun := Played(plan, env, s, u, Begin);
    var seen := match env.sample(id)
                case None => begun
                case Some(metrics) => Played(plan, env, begun, u, Sample(env.now, metrics));
    seen.(running := true)
  }

  // ---------------------------------------------------------------- verdicts of two ends

  predicate MissingThresholdMetric(parsed: Parsed, ths: seq<Threshold>) {
    exists i :: 0 <= i < |ths| && ths[i].metric !in parsed.metrics && ths[i].metric !in parsed.unmeasurable
  }

  /** A pass nobody can verify because its log is gone is the machinery's Error. */
  function LogRule(test: Test, h: Harvest): Parsed {
    if h.logLost && h.parsed.exit.ExitPass? && MissingThresholdMetric(h.parsed, test.thresholds)
    then h.parsed.(exit := ExitError)
    else h.parsed
  }

  /** pairVerdict: Error outranks Fail outranks Skip outranks Pass; a server alone cannot pass. */
  function PairVerdict(server: Option<Exit>, client: Option<Exit>): Exit {
    match (server, client)
    case (None, None) => ExitError
    case (Some(e), None) => if e.ExitPass? then ExitError else e
    case (None, Some(e)) => e
    case (Some(e), Some(f)) =>
      if e.ExitError? || f.ExitError? then ExitError
      else if e.ExitFail? || f.ExitFail? then ExitFail
      else if e.ExitSkip? || f.ExitSkip? then ExitSkip
      else ExitPass
  }

  function ExitOf(side: Option<Parsed>): Option<Exit> {
    if side.Some? then Some(side.value.exit) else None
  }

  function MetricsOf(side: Option<Parsed>): Metrics {
    if side.Some? then side.value.metrics else map[]
  }

  function UnmeasurableOf(side: Option<Parsed>): set<string> {
    if side.Some? then side.value.unmeasurable else {}
  }

  function RejectedOf(side: Option<Parsed>): nat {
    if side.Some? then side.value.rejected else 0
  }

  /** combinePair: the client's readings win, and a measured name is not unmeasurable. */
  function CombinePair(test: Test, server: Option<Parsed>, client: Option<Parsed>, logLost: bool): Parsed {
    var metrics := MetricsOf(server) + MetricsOf(client);
    var both := Parsed(
      PairVerdict(ExitOf(server), ExitOf(client)),
      metrics,
      (UnmeasurableOf(server) + UnmeasurableOf(client)) - metrics.Keys,
      RejectedOf(server) + RejectedOf(client));
    LogRule(test, Harvest(both, logLost))
  }

  /** A link passes only when the measuring end reported a pass and the other end contradicts it in nothing. */
  lemma LinkPassNeedsTheClient(test: Test, server: Option<Parsed>, client: Option<Parsed>, logLost: bool)
    ensures CombinePair(test, server, client, logLost).exit.ExitPass? <==>
      && client.Some? && client.value.exit.ExitPass?
      && (server.Some? ==> server.value.exit.ExitPass?)
      && !(logLost && MissingThresholdMetric(CombinePair(test, server, client, false), test.thresholds))
  {
  }

  function Severity(e: Exit): nat {
    match e
    case ExitPass => 0
    case ExitSkip => 1
    case ExitFail => 2
    case ExitError => 3
  }

  /** Of two reports the graver decides, and a link only one end of which reported never passes on the server's word. */
  lemma GraverEndDecides(server: Option<Exit>, client: Option<Exit>)
    ensures server.Some? && client.Some? ==>
      Severity(PairVerdict(server, client)) == Base.Max(Severity(server.value), Severity(client.value))
    ensures client.None? ==> !PairVerdict(server, client).ExitPass?
    ensures server.None? && client.Some? ==> PairVerdict(server, client) == client.value
  {
  }

  /** The measuring end's readings win, and what either end measured is not unmeasurable. */
  lemma ClientReadingsWin(test: Test, server: Option<Parsed>, client: Option<Parsed>, logLost: bool, m: string)
    ensures var both := CombinePair(test, server, client, logLost);
            && (m in MetricsOf(client) ==> m in both.metrics && both.metrics[m] == MetricsOf(client)[m])
            && (m in both.metrics <==> m in MetricsOf(server) || m in MetricsOf(client))
            && (m in both.unmeasurable <==> (m in UnmeasurableOf(server) || m in UnmeasurableOf(client)) && m !in both.metrics)
  {
  }

  // ---------------------------------------------------------------- one node

  function StartNode(plan: Plan, env: Env, s: Sweep, u: Unit, id: PodId): Sweep
    requires u.test < |plan.tests| && |u.nodes| == 1
  {
    var node := u.nodes[0];
    if !env.launch || (node !in s.busy && |s.busy| >= env.cap) then s.(pending := true)
    else if !env.builds(id) then Finished(plan, env, s, u, MACHINERY_ERROR)
    else LaunchNode(env, s, node, id)
  }

  /** The node is held before the pod exists. */
  function LaunchNode(env: Env, s: Sweep, node: string, id: PodId): (r: Sweep)
    ensures r.results == s.results && r.log == s.log
  {
    if !env.cordons(node) then s.(ok := false)
    else
      var held := s.(stamped := s.stamped + ({node} * env.claimable));
      if !env.creates(id) then held.(ok := false)
      else held.(pods := s.pods[id := NEW_POD], busy := s.busy + {node}, running := true)
  }

  function WatchNode(plan: Plan, env: Env, s: Sweep, u: Unit, id: PodId, pod: Pod): Sweep
    requires u.test < |plan.tests| && |u.nodes| == 1
  {
    var s := if pod.Live() then s.(busy := s.busy + {u.nodes[0]}) else s;
    if pod.Ended() then Finished(plan, env, s, u, LogRule(plan.tests[u.test].test, env.report(id)))
    else if env.overdue(id) then Finished(plan, env, s.(kill := s.kill + {id}), u, MACHINERY_ERROR)
    else if !pod.Started() then s.(running := true)
    else Watched(plan, env, s, u, id)
  }

  /** advance: one step for one test on one node. */
  function AdvanceNode(plan: Plan, env: Env, s: Sweep, u: Unit): Sweep
    requires u.test < |plan.tests| && |u.nodes| == 1
  {
    var id := PodId(u, 0, Current(plan, s.results, u));
    if id in s.pods then WatchNode(plan, env, s, u, id, s.pods[id]) else StartNode(plan, env, s, u, id)
  }

  // ---------------------------------------------------------------- pairs and groups

  function RankId(u: Unit, rank: nat, attempt: int): PodId {
    PodId(u, rank, attempt)
  }

  /** The pods of one attempt that exist. */
  function AttemptPods(pods: map<PodId, Pod>, u: Unit, attempt: int): set<PodId> {
    set id | id in pods && id.unit == u && id.attempt == attempt && id.rank < |u.nodes|
  }

  predicate AnyLive(pods: map<PodId, Pod>, u: Unit, attempt: int) {
    exists id :: id in AttemptPods(pods, u, attempt) && pods[id].Live()
  }

  /** cordonWave: nodes are stamped in order until one cannot be. */
  function StampWave(env: Env, stamped: set<string>, nodes: seq<string>): set<string>
    decreases |nodes|
  {
    if nodes == [] || !env.cordons(nodes[0]) then stamped
    else StampWave(env, stamped + ({nodes[0]} * env.claimable), nodes[1..])
  }

  predicate AllCordon(env: Env, nodes: seq<string>) {
    forall i :: 0 <= i < |nodes| ==> env.cordons(nodes[i])
  }

  /** startPair, startGroup: the unit is admitted, stamped and counted as a whole before its first pod. */
  function StartUnit(plan: Plan, env: Env, s: Sweep, u: Unit): Sweep
    requires u.test < |plan.tests|
  {
    var id := RankId(u, 0, Current(plan, s.results, u));
    if !env.launch || |s.busy + NodeSet(u)| > env.cap then s.(pending := true)
    else if !env.builds(id) then Finished(plan, env, s, u, MACHINERY_ERROR)
    else LaunchUnit(env, s, u, id)
  }

  /** Every node is held before any pod exists. */
  function LaunchUnit(env: Env, s: Sweep, u: Unit, id: PodId): (r: Sweep)
    ensures r.results == s.results && r.log == s.log
  {
    var held := s.(stamped := StampWave(env, s.stamped, u.nodes));
    if !AllCordon(env, u.nodes) || !env.creates(id) then held.(ok := false)
    else held.(pods := s.pods[id := NEW_POD], busy := s.busy + NodeSet(u), running := true)
  }

  /** The remaining ranks, together. */
  function CreateRest(plan: Plan, env: Env, s: Sweep, u: Unit, attempt: int, rank: nat): Sweep
    requires u.test < |plan.tests|
    decreases |u.nodes| - rank
  {
    if rank >= |u.nodes| then s.(running := true)
    else
      var id := RankId(u, rank, attempt);
      if id in s.pods then CreateRest(plan, env, s, u, attempt, rank + 1)
      else if !env.builds(id) then Finished(plan, env, s, u, MACHINERY_ERROR)
      else if !env.creates(id) then s.(ok := false)
      else CreateRest(plan, env, s.(pods := s.pods[id := NEW_POD]), u, attempt, rank + 1)
  }

  /** gateClientOnServer, gateWorkersOnRoot: nobody joins before the first rank reports Ready. */
  function GateUnit(plan: Plan, env: Env, s: Sweep, u: Unit): Sweep
    requires u.test < |plan.tests|
    requires RankId(u, 0, Current(plan, s.results, u)) in s.pods
  {
    var attempt := Current(plan, s.results, u);
    var id := RankId(u, 0, attempt);
    var root := s.pods[id];
    var t := plan.tests[u.test];
    if root.Ended() then
      if t.scope.PairScope? then
        Finished(plan, env, s, u, CombinePair(t.test, Some(env.report(id).parsed), None, env.report(id).logLost))
      else
        Finished(plan, env, s.(kill := s.kill + AttemptPods(s.pods, u, attempt)), u, env.collective(u))
    else if env.overdue(id) then
      Finished(plan, env, s.(kill := s.kill + AttemptPods(s.pods, u, attempt)), u, MACHINERY_ERROR)
    else if !root.Started() then s.(running := true)
    else
      var begun := Played(plan, env, s, u, Begin);
      if !root.Ready() then begun.(running := true)
      else if !env.launch then begun.(pending := true)
      else CreateRest(plan, env, begun, u, attempt, 1)
  }

  /** harvestPair: the client decides; a server still running is condemned, not deleted. */
  function HarvestPair(plan: Plan, env: Env, s: Sweep, u: Unit): Sweep
    requires u.test < |plan.tests|
    requires forall rank: nat :: rank < 2 ==> RankId(u, rank, Current(plan, s.results, u)) in s.pods
  {
    var attempt := Current(plan, s.results, u);
    var server, client := RankId(u, 0, attempt), RankId(u, 1, attempt);
    if !s.pods[client].Ended() then
      if env.overdue(client) then Finished(plan, env, s.(kill := s.kill + {server, client}), u, MACHINERY_ERROR)
      else Watched(plan, env, s, u, client)
    else
      var h := env.report(client);
      var test := plan.tests[u.test].test;
      if s.pods[server].Ended() then
        var g := env.report(server);
        Finished(plan, env, s, u, CombinePair(test, Some(g.parsed), Some(h.parsed), h.logLost || g.logLost))
      else
        Finished(plan, env, s.(kill := s.kill + {server}), u, CombinePair(test, None, Some(h.parsed), h.logLost))
  }

  /** harvestGroup: every rank reports, or the window closes on all of them. */
  function HarvestGroup(plan: Plan, env: Env, s: Sweep, u: Unit): Sweep
    requires u.test < |plan.tests|
  {
    var attempt := Current(plan, s.results, u);
    var pods := AttemptPods(s.pods, u, attempt);
    if exists id :: id in pods && !s.pods[id].Ended() then
      if exists id :: id in pods && env.overdue(id) then
        Finished(plan, env, s.(kill := s.kill + pods), u, MACHINERY_ERROR)
      else Watched(plan, env, s, u, RankId(u, 0, attempt))
    else Finished(plan, env, s, u, env.collective(u))
  }

  predicate Complete(pods: map<PodId, Pod>, u: Unit, attempt: int) {
    forall rank: nat :: rank < |u.nodes| ==> RankId(u, rank, attempt) in pods
  }

  /** advancePair, advanceGroup: a unit in flight holds every one of its nodes. */
  function AdvanceGang(plan: Plan, env: Env, s: Sweep, u: Unit): Sweep
    requires u.test < |plan.tests| && |u.nodes| >= 2
    requires plan.tests[u.test].scope.PairScope? ==> |u.nodes| == 2
  {
    var attempt := Current(plan, s.results, u);
    var s := if AnyLive(s.pods, u, attempt) then s.(busy := s.busy + NodeSet(u)) else s;
    if RankId(u, 0, attempt) !in s.pods then StartUnit(plan, env, s, u)
    else if !Complete(s.pods, u, attempt) then GateUnit(plan, env, s, u)
    else if plan.tests[u.test].scope.PairScope? then HarvestPair(plan, env, s, u)
    else HarvestGroup(plan, env, s, u)
  }

  // ---------------------------------------------------------------- the sweep

  predicate UnitOk(plan: Plan, u: Unit) {
    && u.test < |plan.tests|
    && match plan.tests[u.test].scope
       case PairScope => u.nodes == plan.targets && |u.nodes| == 2
       case GroupScope => u.nodes == plan.targets && |u.nodes| >= 2
       case NodeScope => |u.nodes| == 1 && u.nodes[0] in plan.targets
       case OtherScope => false
  }

  /** The plan passed its topology checks when it was pinned. */
  predicate PlanOk(plan: Plan) {
    forall i :: 0 <= i < |plan.tests| ==>
      && (plan.tests[i].scope.PairScope? ==> |plan.targets| == 2)
      && (plan.tests[i].scope.GroupScope? ==> |plan.targets| >= 2)
  }

  function Advance(plan: Plan, env: Env, s: Sweep, u: Unit): Sweep
    requires UnitOk(plan, u)
  {
    if Over(s.results, u) then s
    else if plan.tests[u.test].scope.PairScope? || plan.tests[u.test].scope.GroupScope? then AdvanceGang(plan, env, s, u)
    else AdvanceNode(plan, env, s, u)
  }

  function SweepUnits(plan: Plan, env: Env, s: Sweep, units: seq<Unit>): Sweep
    requires forall k :: 0 <= k < |units| ==> UnitOk(plan, units[k])
    decreases |units|
  {
    if units == [] || !s.ok then s
    else SweepUnits(plan, env, Advance(plan, env, s, units[0]), units[1..])
  }

  predicate RequiredPhase(plan: Plan, results: map<Unit, Result>, phase: Phase) {
    exists u :: u in results && u.test < |plan.tests| && plan.tests[u.test].required && results[u].phase == phase
  }

  /** settleWithoutPod: a scope this operator does not know is an Error, never an omission. */
  function SettleUnknown(plan: Plan, s: Sweep, i: nat): Sweep
    requires i < |plan.tests|
  {
    if Unit(i, []) in s.results then s
    else s.(results := s.results[Unit(i, []) := Cut(New(plan.tests[i].test))])
  }

  lemma UnitsOk(plan: Plan, i: nat)
    requires PlanOk(plan) && i < |plan.tests| && !plan.tests[i].scope.OtherScope?
    ensures forall k :: 0 <= k < |Units(plan, i)| ==> UnitOk(plan, Units(plan, i)[k]) && Units(plan, i)[k].test == i
  {
  }

  /** Tests run in plan order, one at a time. */
  function SweepTests(plan: Plan, env: Env, s: Sweep, i: nat): Sweep
    requires PlanOk(plan)
    decreases |plan.tests| - i
  {
    if i >= |plan.tests| || (plan.failFast && RequiredPhase(plan, s.results, Failed)) then s
    else if plan.tests[i].scope.OtherScope? then SweepTests(plan, env, SettleUnknown(plan, s, i), i + 1)
    else
      UnitsOk(plan, i);
      var s := SweepUnits(plan, env, s, Units(plan, i));
      if s.Idle() then SweepTests(plan, env, s, i + 1) else s
  }

  function Seeded(results: map<Unit, Result>, pods: map<PodId, Pod>, stamped: set<string>): Sweep {
    Sweep(results, pods, LiveNodes(pods) + Holding(results), stamped, {}, false, false, false, true, map[])
  }

  /** execute, up to the release of nodes no longer in use. */
  function Execute(plan: Plan, env: Env, results: map<Unit, Result>, pods: map<PodId, Pod>, stamped: set<string>): Sweep
    requires PlanOk(plan)
  {
    SweepTests(plan, env, Seeded(results, pods, stamped), 0)
  }
}
