/**
  A run over its whole life: reconcile passes, the cluster moving under them, and a
  crash between any two writes. A pass reads the pods at one instant; what it creates
  and stamps is in the cluster at once, what it records is durable only when written.
*/
module RunProtocol {
  import opened Base
  import opened Verdict
  import opened Soak
  import opened Attempts
  import opened AttemptHistory
  import opened AttemptVerdict
  import opened Execution
  import opened ExecutionFacts
  import opened SweepFacts

  // ---------------------------------------------------------------- state and steps

  /**
    stamped are the nodes carrying this run's stamp, foreign those carrying another owner's.
    Three components are history: killed are the pods the operator itself deleted while they
    were live; conceded says of each pod which nodes of its unit carried another owner's
    stamp when it was created; log is what the durable results were made from.
  */
  datatype State = State(
    phase: Phase,
    results: map<Unit, Result>,
    pods: map<PodId, Pod>,
    stamped: set<string>,
    foreign: set<string>,
    existing: set<string>,
    cancelling: bool,
    deleting: bool,
    killed: set<PodId>,
    conceded: map<PodId, set<string>>,
    log: map<Unit, seq<Event>>
  )

  datatype Action =
    | PodMoves(id: PodId, pod: Pod)
    | PodGone(id: PodId)
    | NodeGone(node: string)
    | OthersStamp(node: string)
    | OthersRelease(node: string)
    | RequestDeletion
    | MarkCancelling
    | Pass(env: Env, commit: bool, kills: set<PodId>, released: set<string>)
    | Drain(env: Env, immediate: bool, dirty: bool, commit: bool, kills: set<PodId>, released: set<string>)
    | Expire(kills: set<PodId>, released: set<string>)
    | CleanUp(kills: set<PodId>, released: set<string>)

  function LivePods(pods: map<PodId, Pod>): set<PodId> {
    set id | id in pods && pods[id].Live()
  }

  /** terminate, reconcileTerminal, reconcileDeleted: beyond what is free anyway, nodes go back once no pod is left alive. */
  predicate LoadOffFirst(pods: map<PodId, Pod>, kills: set<PodId>, released: set<string>, free: set<string>) {
    kills <= LivePods(pods) && (released <= free || kills == LivePods(pods))
  }

  predicate Stepping(st: State) {
    !st.phase.Terminal() && !st.deleting
  }

  function Sweeping(plan: Plan, st: State, env: Env): Sweep
    requires PlanOk(plan)
  {
    Execute(plan, env, st.results, st.pods, st.stamped)
  }

  /** What becomes of a finished sweep. */
  datatype Fate = Dropped | Persist | Record | Wait | Finalize

  function FateOf(s: Sweep, launch: bool, commit: bool): Fate {
    if !s.ok || !commit then Dropped
    else if s.running || s.pending then Persist
    else if s.harvested then Record
    else if !launch then Wait
    else Finalize
  }

  /** releaseHeldNodes: what a sweep that got to its end may give back. */
  function Free(s: Sweep): set<string> {
    if s.ok then s.stamped - s.busy else {}
  }

  predicate PassEnabled(s: Sweep, fate: Fate, kills: set<PodId>, released: set<string>) {
    match fate
    case Record => kills <= s.kill * LivePods(s.pods) && released <= Free(s)
    case Finalize => LoadOffFirst(s.pods, kills, released, Free(s))
    case _ => kills == {} && released <= Free(s)
  }

  predicate Enabled(plan: Plan, st: State, a: Action)
    requires PlanOk(plan)
  {
    match a
    case PodMoves(id, pod) => id in st.pods && (!st.pods[id].Live() ==> pod.phase == st.pods[id].phase)
    case PodGone(id) => id in st.pods
    case NodeGone(node) => true
    case OthersStamp(node) => node in st.existing && node !in st.stamped
    case OthersRelease(node) => true
    case RequestDeletion => true
    case MarkCancelling => Stepping(st)
    case Pass(env, commit, kills, released) =>
      && Stepping(st) && !st.cancelling && env.claimable == st.existing - st.foreign
      && var s := Sweeping(plan, st, env); PassEnabled(s, FateOf(s, env.launch, commit), kills, released)
    case Drain(env, immediate, dirty, commit, kills, released) =>
      && Stepping(st) && st.cancelling && env.claimable == st.existing - st.foreign && !env.launch
      && var s := Sweeping(plan, st, env);
         PassEnabled(s, if DrainEnds(s, immediate, dirty, commit) then Finalize else Persist, kills, released)
    case Expire(kills, released) => Stepping(st) && !st.cancelling && LoadOffFirst(st.pods, kills, released, {})
    case CleanUp(kills, released) => (st.phase.Terminal() || st.deleting) && LoadOffFirst(st.pods, kills, released, {})
  }

  /** A drain settles the run once nothing is in flight, or at once under the immediate policy. */
  predicate DrainEnds(s: Sweep, immediate: bool, dirty: bool, commit: bool) {
    s.ok && commit && (immediate || !(s.running || s.harvested || dirty))
  }

  /** finalize: Failed beats Error beats Passed. */
  function FinalPhase(plan: Plan, results: map<Unit, Result>): Phase {
    if RequiredPhase(plan, results, Failed) then Failed
    else if RequiredPhase(plan, results, Error) then Error
    else Passed
  }

  /** The units settleRemaining walks. */
  function Owed(plan: Plan, results: map<Unit, Result>): (us: set<Unit>)
    ensures forall u :: u in us ==> u.test < |plan.tests|
  {
    set i, k | 0 <= i < |plan.tests| && Unit(i, []) !in results && 0 <= k < |Units(plan, i)| :: Units(plan, i)[k]
  }

  function SettleRemaining(plan: Plan, results: map<Unit, Result>, phase: Phase): map<Unit, Result> {
    var owed := Owed(plan, results);
    map u | u in results.Keys + owed :: if u in owed then Stopped(Get(plan, results, u), phase) else results[u]
  }

  function CutAll(results: map<Unit, Result>): map<Unit, Result> {
    map u | u in results :: Cut(results[u])
  }

  function Terminated(st: State, results: map<Unit, Result>, phase: Phase, kills: set<PodId>, released: set<string>): State {
    Cleaned(st.(phase := phase, results := CutAll(results)), kills, released)
  }

  function Cleaned(st: State, kills: set<PodId>, released: set<string>): State {
    st.(pods := st.pods - kills, killed := st.killed + kills, stamped := st.stamped - released)
  }

  /** The nodes of its unit a pod was created without claiming. */
  function Conceded(st: State, pods: map<PodId, Pod>): map<PodId, set<string>> {
    st.conceded + (map id | id in pods && id !in st.pods :: NodeSet(id.unit) * st.foreign)
  }

  function Extended(log: map<Unit, seq<Event>>, more: map<Unit, seq<Event>>): map<Unit, seq<Event>> {
    map u | u in log.Keys + more.Keys :: Logged(log, u) + Logged(more, u)
  }

  /** What a sweep has done to the cluster, whether or not its record is written. */
  function Landed(st: State, s: Sweep): State {
    st.(pods := s.pods, stamped := s.stamped, conceded := Conceded(st, s.pods))
  }

  /** The same, with the record written. */
  function Written(st: State, s: Sweep): State {
    Landed(st, s).(results := s.results, log := Extended(st.log, s.log))
  }

  function AfterPass(plan: Plan, st: State, s: Sweep, fate: Fate, kills: set<PodId>, released: set<string>): State {
    match fate
    case Dropped => Cleaned(Landed(st, s), {}, released)
    case Wait => Cleaned(Landed(st, s), {}, released)
    case Persist => Cleaned(Written(st, s), {}, released)
    case Record => Cleaned(Written(st, s), kills, released)
    case Finalize => Terminated(Written(st, s), s.results, FinalPhase(plan, s.results), kills, released)
  }

  function AfterDrain(plan: Plan, st: State, s: Sweep, ends: bool, commit: bool, kills: set<PodId>, released: set<string>): State {
    if ends then Terminated(Written(st, s), SettleRemaining(plan, s.results, Cancelled), Cancelled, kills, released)
    else Cleaned(if s.ok && commit then Written(st, s) else Landed(st, s), {}, released)
  }

  function Apply(plan: Plan, st: State, a: Action): State
    requires PlanOk(plan)
  {
    match a
    case PodMoves(id, pod) => st.(pods := st.pods[id := pod])
    case PodGone(id) => st.(pods := st.pods - {id})
    case NodeGone(node) => st.(existing := st.existing - {node}, stamped := st.stamped - {node}, foreign := st.foreign - {node})
    case OthersStamp(node) => st.(foreign := st.foreign + {node})
    case OthersRelease(node) => st.(foreign := st.foreign - {node})
    case RequestDeletion => st.(deleting := true)
    case MarkCancelling => st.(cancelling := true)
    case Pass(env, commit, kills, released) =>
      var s := Sweeping(plan, st, env);
      AfterPass(plan, st, s, FateOf(s, env.launch, commit), kills, released)
    case Drain(env, immediate, dirty, commit, kills, released) =>
      var s := Sweeping(plan, st, env);
      AfterDrain(plan, st, s, DrainEnds(s, immediate, dirty, commit), commit, kills, released)
    case Expire(kills, released) => Terminated(st, SettleRemaining(plan, st.results, Error), Error, kills, released)
    case CleanUp(kills, released) => Cleaned(st, kills, released)
  }

  ghost predicate Possible(plan: Plan, st: State, trace: seq<Action>)
    requires PlanOk(plan)
    decreases |trace|
  {
    trace == [] || (Enabled(plan, st, trace[0]) && Possible(plan, Apply(plan, st, trace[0]), trace[1..]))
  }

  ghost function After(plan: Plan, st: State, trace: seq<Action>): State
    requires PlanOk(plan)
    decreases |trace|
  {
    if trace == [] then st else After(plan, Apply(plan, st, trace[0]), trace[1..])
  }

  function Begun(existing: set<string>): State {
    State(Running, map[], map[], {}, {}, existing, false, false, {}, map[], map[])
  }
}
