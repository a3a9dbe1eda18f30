/**
  The cordon as a distributed protocol: any number of runs, forced overlaps
  included, the orphan reaper, users and administrators, with every API write a
  compare-and-swap on the object's version and a crash possible between any two
  writes. A trace is a sequence of actions; every interleaving is some trace.
*/
module CordonProtocol {
  import opened Base
  import opened Stamps
  import opened Cordon

  // ---------------------------------------------------------------- state

  datatype VNode = VNode(version: nat, node: Node)

  /** How far a run's status has got: not yet Running, Running, or terminal. */
  datatype Life = Waiting | Active | Done

  /** A BurnInRun as the API server holds it. */
  datatype RunObj = RunObj(
    id: Owner, pinned: bool, finalizer: bool, deleting: bool, life: Life, record: Option<Record>)

  /** Where a reconcile of one run has got to. */
  datatype Pc =
    | Starting
    | Capturing(unrecorded: bool)                             // markRunning
    | Stepping                                                // execute
    | Writing(name: string, version: nat, rest: seq<Node>)    // cordonNode or releaseNode: writes still to issue
    | Listing                                                 // releaseCordons, before the scan
    | Clearing(todo: map<string, VNode>)                      // releaseCordons, nodes still to restore

  /** One reconcile in flight; all of it is lost in a crash. */
  datatype Worker = Worker(id: Owner, pc: Pc, memory: Option<Record>)

  /** One reaper pass in flight: the node as its cache showed it, and whether the owner was proved absent. */
  datatype Reap = Reap(name: string, read: VNode, owner: Owner, absent: bool)

  datatype State = State(
    nodes: map<string, VNode>,
    clock: nat,                      // the next object version
    runs: map<string, RunObj>,       // by UID
    used: set<string>,               // every UID ever issued or found on a stamp
    workers: map<string, Worker>,    // by UID: one reconcile per run at a time
    reapers: set<Reap>,
    base: map<string, bool>,         // each node's schedulability apart from burn-in
    foreign: set<string>             // UIDs found on stamps when burn-in arrived
  )

  function Recorded(m: Option<Record>): Record {
    if m.Some? then m.value else map[]
  }

  /** A run that may still cordon a node: neither finished nor being deleted. */
  predicate Holds(r: RunObj) {
    !r.deleting && !r.life.Done?
  }

  predicate Says(rec: Record, name: string, b: bool) {
    name in rec ==> rec[name] == b
  }

  /**
    A reconcile in flight that may yet claim this node from outside, whatever becomes of its
    run: it is executing, or will be after a write to another node, or can still mark its run
    Running. One about to write to this very node is not: its write is refused.
  */
  predicate MayClaim(s: State, u: string, name: string)
    requires u in s.workers
  {
    match s.workers[u].pc
    case Stepping => true
    case Writing(m, _, _) => m != name
    case Capturing(_) => u in s.runs && !s.runs[u].deleting
    case _ => false
  }

  /** Every record of this node that can still be acted on says it is found as it is now put. */
  predicate Agreed(s: State, name: string, b: bool) {
    && (forall u :: u in s.runs && Holds(s.runs[u]) ==> Says(Recorded(s.runs[u].record), name, b))
    && (forall u :: u in s.workers && MayClaim(s, u, name) ==> Says(Recorded(s.workers[u].memory), name, b))
  }

  /** The cluster as burn-in first meets it. */
  predicate Init(s: State) {
    && s.runs == map[] && s.workers == map[] && s.reapers == {}
    && s.foreign == s.used
    && s.base.Keys == s.nodes.Keys
    && (forall n :: n in s.nodes ==>
          && s.nodes[n].version < s.clock
          && s.nodes[n].node.owner != Some("")
          && s.base[n] == PreBurnIn(s.nodes[n].node)
          && (ParseOwner(Value(s.nodes[n].node.owner)).Some? ==>
                ParseOwner(Value(s.nodes[n].node.owner)).value.uid in s.used))
  }

  // ---------------------------------------------------------------- actions

  datatype Action =
    // users and the API server
    | CreateRun(id: Owner)
    | DeleteRun(uid: string)
    | Vanish(uid: string)
    | ForceFinalizer(uid: string)               // somebody strips the finalizer by hand
    | NodeEdit(name: string, unschedulable: bool)
    | NodeCreate(name: string, unschedulable: bool)
    | NodeDelete(name: string)
    // the run reconciler
    | Begin(uid: string)
    | Pin(uid: string)                          // plan and finalizer in one write
    | AddFinalizer(uid: string)
    | Capture(uid: string, name: string)
    | Mark(uid: string)                         // Running and the record in one write
    | CordonRead(uid: string, name: string, heat: Heat)
    | ReleaseRead(uid: string, name: string)
    | NodeWrite(uid: string)
    | NodeGone(uid: string)
    | Terminate(uid: string)
    | List(uid: string)
    | ClearWrite(uid: string, name: string)
    | ClearGone(uid: string, name: string)
    | DropFinalizer(uid: string)
    | Crash(uid: string)
    // the reaper
    | ReapRead(name: string)
    | ReapCheck(reap: Reap)
    | ReapWrite(reap: Reap)
    | ReapDrop(reap: Reap)

  predicate At(s: State, uid: string) {
    uid in s.workers
  }

  predicate Current(s: State, name: string, version: nat) {
    name in s.nodes && s.nodes[name].version == version
  }

  predicate Alive(s: State, owner: Owner) {
    exists u :: u in s.runs && s.runs[u].id == owner
  }

  predicate Enabled(s: State, a: Action) {
    match a
    case CreateRun(id) =>
      && Nameable(id) && id.uid !in s.used
      && forall u :: u in s.runs ==> s.runs[u].id.namespace != id.namespace || s.runs[u].id.name != id.name
    case DeleteRun(u) => u in s.runs
    case Vanish(u) => u in s.runs && s.runs[u].deleting && !s.runs[u].finalizer
    case ForceFinalizer(u) => u in s.runs
    case NodeEdit(n, b) => n in s.nodes && (s.nodes[n].node.owner.Some? || Agreed(s, n, b))
    case NodeCreate(n, b) => n !in s.nodes && Agreed(s, n, b)
    case NodeDelete(n) => n in s.nodes
    case Begin(u) => u in s.runs && u !in s.workers
    case Pin(u) => At(s, u) && s.workers[u].pc.Starting? && u in s.runs && !s.runs[u].deleting
    case AddFinalizer(u) => At(s, u) && s.workers[u].pc.Capturing? && u in s.runs && !s.runs[u].deleting
    case Capture(u, n) => At(s, u) && s.workers[u].pc == Capturing(true) && n in s.nodes
    case Mark(u) => At(s, u) && s.workers[u].pc.Capturing? && u in s.runs && !s.runs[u].deleting
    case CordonRead(u, n, _) => At(s, u) && s.workers[u].pc.Stepping? && n in s.nodes
    case ReleaseRead(u, n) =>
      At(s, u) && s.workers[u].pc.Stepping? && n in s.nodes && Owns(s.workers[u].id, s.nodes[n].node)
    case NodeWrite(u) =>
      && At(s, u) && s.workers[u].pc.Writing? && s.workers[u].pc.rest != []
      && Current(s, s.workers[u].pc.name, s.workers[u].pc.version)
    case NodeGone(u) => At(s, u) && s.workers[u].pc.Writing? && s.workers[u].pc.name !in s.nodes
    case Terminate(u) => At(s, u) && (s.workers[u].pc.Starting? || s.workers[u].pc.Stepping?) && u in s.runs
    case List(u) => At(s, u) && s.workers[u].pc.Listing?
    case ClearWrite(u, n) =>
      && At(s, u) && s.workers[u].pc.Clearing? && n in s.workers[u].pc.todo
      && Current(s, n, s.workers[u].pc.todo[n].version)
    case ClearGone(u, n) => At(s, u) && s.workers[u].pc.Clearing? && n in s.workers[u].pc.todo && n !in s.nodes
    case DropFinalizer(u) => At(s, u) && s.workers[u].pc == Clearing(map[]) && u in s.runs
    case Crash(u) => At(s, u)
    case ReapRead(n) => n in s.nodes && s.nodes[n].node.owner.Some? && ParseOwner(s.nodes[n].node.owner.value).Some?
    case ReapCheck(r) => r in s.reapers && !Alive(s, r.owner)
    case ReapWrite(r) => r in s.reapers && r.absent && Current(s, r.name, r.read.version)
    case ReapDrop(r) => r in s.reapers
  }

  /** A successful compare-and-swap: new contents under a version never used before. */
  function Put(s: State, name: string, node: Node): State {
    s.(nodes := s.nodes[name := VNode(s.clock, node)], clock := s.clock + 1)
  }

  function WithRun(s: State, u: string, r: RunObj): State {
    s.(runs := s.runs[u := r])
  }

  function WithPc(s: State, u: string, pc: Pc): State
    requires u in s.workers
  {
    s.(workers := s.workers[u := s.workers[u].(pc := pc)])
  }

  /** Back to executing once a node operation has issued its last write. */
  function AfterWrites(name: string, version: nat, rest: seq<Node>): Pc {
    if rest == [] then Stepping else Writing(name, version, rest)
  }

  function FirstPc(r: RunObj): Pc {
    if r.deleting || r.life.Done? then Listing
    else if !r.pinned then Starting
    else if r.life.Waiting? then Capturing(r.record.None?)
    else Stepping
  }

  function OwnNodes(s: State, id: Owner): map<string, VNode> {
    map n | n in s.nodes && Owns(id, s.nodes[n].node) :: s.nodes[n]
  }

  function Apply(s: State, a: Action): State
    requires Enabled(s, a)
  {
    match a
    case CreateRun(id) => WithRun(s, id.uid, RunObj(id, false, false, false, Waiting, None)).(used := s.used + {id.uid})
    case DeleteRun(u) => WithRun(s, u, s.runs[u].(deleting := true))
    case Vanish(u) => s.(runs := s.runs - {u})
    case ForceFinalizer(u) => WithRun(s, u, s.runs[u].(finalizer := false))
    case NodeEdit(n, b) =>
      var node := s.nodes[n].node.(unschedulable := b);
      Put(s, n, node).(base := s.base[n := PreBurnIn(node)])
    case NodeCreate(n, b) => Put(s, n, Node(b, None, None, None)).(base := s.base[n := b])
    case NodeDelete(n) => s.(nodes := s.nodes - {n})
    case Begin(u) =>
      var r := s.runs[u];
      if FirstPc(r).Listing? && !r.finalizer then s   // nothing left to converge
      else s.(workers := s.workers[u := Worker(r.id, FirstPc(r), r.record)])
    case Pin(u) => WithPc(WithRun(s, u, s.runs[u].(pinned := true, finalizer := true)), u, Capturing(s.runs[u].record.None?))
    case AddFinalizer(u) => WithRun(s, u, s.runs[u].(finalizer := true))
    case Capture(u, n) =>
      var w := s.workers[u];
      s.(workers := s.workers[u := w.(memory := Some(Recorded(w.memory)[n := PreBurnIn(s.nodes[n].node)]))])
    case Mark(u) =>
      WithRun(s, u, s.runs[u].(life := Active, record := s.workers[u].memory)).(workers := s.workers - {u})
    case CordonRead(u, n, heat) =>
      var w := s.workers[u];
      var states := CordonStates(s.nodes[n].node, w.id, Recorded(w.memory), n, heat);
      WithPc(s, u, AfterWrites(n, s.nodes[n].version, states[1..]))
    case ReleaseRead(u, n) =>
      var w := s.workers[u];
      WithPc(s, u, Writing(n, s.nodes[n].version, [Released(s.nodes[n].node, w.id, Recorded(w.memory), n)]))
    case NodeWrite(u) =>
      var pc := s.workers[u].pc;
      WithPc(Put(s, pc.name, pc.rest[0]), u, AfterWrites(pc.name, s.clock, pc.rest[1..]))
    case NodeGone(u) => WithPc(s, u, Stepping)
    case Terminate(u) => WithPc(WithRun(s, u, s.runs[u].(life := Done)), u, Listing)
    case List(u) => WithPc(s, u, Clearing(OwnNodes(s, s.workers[u].id)))
    case ClearWrite(u, n) =>
      var w := s.workers[u];
      WithPc(Put(s, n, Released(w.pc.todo[n].node, w.id, Recorded(w.memory), n)), u, Clearing(w.pc.todo - {n}))
    case ClearGone(u, n) => WithPc(s, u, Clearing(s.workers[u].pc.todo - {n}))
    case DropFinalizer(u) => WithRun(s, u, s.runs[u].(finalizer := false)).(workers := s.workers - {u})
    case Crash(u) => s.(workers := s.workers - {u})
    case ReapRead(n) =>
      s.(reapers := s.reapers + {Reap(n, s.nodes[n], ParseOwner(s.nodes[n].node.owner.value).value, false)})
    case ReapCheck(r) => s.(reapers := s.reapers - {r} + {r.(absent := true)})
    case ReapWrite(r) => Put(s, r.name, Reaped(r.read.node, r.owner)).(reapers := s.reapers - {r})
    case ReapDrop(r) => s.(reapers := s.reapers - {r})
  }

  /** The trace is possible: each action is enabled where it happens. */
  predicate Possible(s: State, trace: seq<Action>)
    decreases |trace|
  {
    trace == [] || (Enabled(s, trace[0]) && Possible(Apply(s, trace[0]), trace[1..]))
  }

  function After(s: State, trace: seq<Action>): State
    requires Possible(s, trace)
    decreases |trace|
  {
    if trace == [] then s else After(Apply(s, trace[0]), trace[1..])
  }

  // ---------------------------------------------------------------- the invariant

  /** The record is right about every node there is. */
  predicate Faithful(s: State, rec: Record) {
    forall n :: n in rec && n in s.nodes ==> n in s.base && rec[n] == s.base[n]
  }

  /** The record is right about the nodes stamped for this owner. */
  predicate RightWhereOwned(s: State, id: Owner, rec: Record) {
    forall n :: n in rec && n in s.nodes && Owns(id, s.nodes[n].node) ==> n in s.base && rec[n] == s.base[n]
  }

  /** A worker's memory is right about every node it can still act on. */
  predicate Minded(s: State, u: string)
    requires u in s.workers
  {
    var rec := Recorded(s.workers[u].memory);
    forall n :: n in rec && n in s.nodes && Heeds(s, u, n) ==> n in s.base && rec[n] == s.base[n]
  }

  predicate Heeds(s: State, u: string, n: string)
    requires u in s.workers
  {
    match s.workers[u].pc
    case Stepping => true
    case Writing(m, v, _) => m != n || Current(s, m, v)
    case Capturing(_) => u in s.runs && !s.runs[u].deleting
    case _ => false
  }

  predicate NodeOk(s: State, n: string)
    requires n in s.nodes
  {
    var node := s.nodes[n].node;
    && s.nodes[n].version < s.clock
    && n in s.base && PreBurnIn(node) == s.base[n] && node.owner != Some("")
    && (ParseOwner(Value(node.owner)).Some? ==>
          var o := ParseOwner(Value(node.owner)).value;
          o.uid in s.used && (o.uid in s.runs ==> s.runs[o.uid].id == o))
  }

  predicate RunOk(s: State, u: string)
    requires u in s.runs
  {
    var r := s.runs[u];
    && r.id.uid == u && Nameable(r.id) && u in s.used
    && (Holds(r) ==> Faithful(s, Recorded(r.record)))
    && RightWhereOwned(s, r.id, Recorded(r.record))
    && (r.life.Waiting? ==> r.record.None?) && (r.life.Active? ==> r.pinned)
  }

  /** A write this worker may issue, should the node still be the version it read. */
  predicate WriteOk(s: State, id: Owner, name: string, node: Node) {
    && name in s.base && PreBurnIn(node) == s.base[name]
    && (node.owner.None? || node.owner == Some(OwnerId(id)))
  }

  predicate PcOk(s: State, w: Worker) {
    match w.pc
    case Writing(n, v, rest) =>
      && v < s.clock && rest != []
      && (Current(s, n, v) ==>
            && (s.nodes[n].node.owner.None? || Owns(w.id, s.nodes[n].node))
            && forall i :: 0 <= i < |rest| ==> WriteOk(s, w.id, n, rest[i]))
    case Clearing(todo) =>
      forall n :: n in todo ==> todo[n].version < s.clock && Owns(w.id, todo[n].node)
                                && (Current(s, n, todo[n].version) ==> s.nodes[n] == todo[n])
    case _ => true
  }

  predicate WorkerOk(s: State, u: string)
    requires u in s.workers
  {
    var w := s.workers[u];
    && w.id.uid == u && Nameable(w.id) && u in s.used && (u in s.runs ==> s.runs[u].id == w.id)
    && Minded(s, u) && RightWhereOwned(s, w.id, Recorded(w.memory)) && PcOk(s, w)
    && (u in s.runs && !w.pc.Listing? && !w.pc.Clearing? ==> !s.runs[u].life.Done?)
    && (u in s.runs && !w.pc.Capturing? ==> w.memory == s.runs[u].record)
    && (w.pc.Starting? ==> w.memory.None?)
    && (u in s.runs && w.pc.Capturing? ==> s.runs[u].pinned)
  }

  predicate ReapOk(s: State, r: Reap) {
    && r.read.version < s.clock && (Current(s, r.name, r.read.version) ==> s.nodes[r.name] == r.read)
    && ParseOwner(Value(r.read.node.owner)) == Some(r.owner)
    && r.owner.uid in s.used && (r.owner.uid in s.runs ==> s.runs[r.owner.uid].id == r.owner)
    && (r.absent ==> r.owner.uid !in s.runs)
  }

  predicate Inv(s: State) {
    && (forall n :: n in s.nodes ==> NodeOk(s, n))
    && (forall u :: u in s.runs ==> RunOk(s, u))
    && (forall u :: u in s.workers ==> WorkerOk(s, u))
    && (forall r :: r in s.reapers ==> ReapOk(s, r))
  }

  lemma InitInv(s: State)
    requires Init(s)
    ensures Inv(s)
  {
  }

  // ---------------------------------------------------------------- every step keeps it

  /** Whoever owns the new node has the right record of it. */
  predicate OwnersRight(s: State, name: string, node: Node, b: bool) {
    && (forall u :: u in s.runs && Owns(s.runs[u].id, node) ==> Says(Recorded(s.runs[u].record), name, b))
    && (forall u :: u in s.workers && Owns(s.workers[u].id, node) ==> Says(Recorded(s.workers[u].memory), name, b))
  }

  /** Replacing one node under a fresh version disturbs nobody else's business. */
  lemma PutKeeps(s: State, name: string, node: Node)
    requires Inv(s) && name in s.base
    requires PreBurnIn(node) == s.base[name] && node.owner != Some("")
    requires Agreed(s, name, s.base[name]) && OwnersRight(s, name, node, s.base[name])
    requires ParseOwner(Value(node.owner)).Some? ==>
               var o := ParseOwner(Value(node.owner)).value;
               o.uid in s.used && (o.uid in s.runs ==> s.runs[o.uid].id == o)
    ensures Inv(Put(s, name, node))
  {
    hide ParseOwner, PreBurnIn, PcOk;
    var t := Put(s, name, node);
    forall n | n in t.nodes ensures NodeOk(t, n) { if n != name { assert NodeOk(s, n); } }
    forall v | v in t.runs ensures RunOk(t, v) { PutRun(s, name, node, v); }
    forall v | v in t.workers ensures WorkerOk(t, v) { PutWorker(s, name, node, v); }
    forall r | r in t.reapers ensures ReapOk(t, r) { assert ReapOk(s, r); }
  }

  lemma PutRun(s: State, name: string, node: Node, v: string)
    requires v in s.runs && RunOk(s, v) && name in s.base
    requires Agreed(s, name, s.base[name]) && OwnersRight(s, name, node, s.base[name])
    ensures RunOk(Put(s, name, node), v)
  {
    hide PreBurnIn, MayClaim;
  }

  lemma PutWorker(s: State, name: string, node: Node, v: string)
    requires v in s.workers && WorkerOk(s, v) && name in s.base
    requires Agreed(s, name, s.base[name]) && OwnersRight(s, name, node, s.base[name])
    ensures WorkerOk(Put(s, name, node), v)
  {
    PutPc(s, name, node, s.workers[v]);
    PutMinded(s, name, node, v);
    hide PreBurnIn, PcOk, Minded, MayClaim;
  }

  lemma PutPc(s: State, name: string, node: Node, w: Worker)
    requires PcOk(s, w)
    ensures PcOk(Put(s, name, node), w)
  {
    hide PreBurnIn;
  }

  lemma PutMinded(s: State, name: string, node: Node, v: string)
    requires v in s.workers && Minded(s, v) && PcOk(s, s.workers[v]) && name in s.base && Agreed(s, name, s.base[name])
    ensures Minded(Put(s, name, node), v)
  {
    hide PreBurnIn;
  }

  /** The records that matter agree with the base of every node there is. */
  lemma InvAgreed(s: State, name: string)
    requires Inv(s) && name in s.nodes
    ensures name in s.base && Agreed(s, name, s.base[name])
  {
    hide PcOk, ParseOwner, PreBurnIn, RightWhereOwned;
    assert NodeOk(s, name);
    forall u | u in s.runs && Holds(s.runs[u]) ensures Says(Recorded(s.runs[u].record), name, s.base[name]) { assert RunOk(s, u); }
    forall u | u in s.workers && MayClaim(s, u, name) ensures Says(Recorded(s.workers[u].memory), name, s.base[name]) {
      assert WorkerOk(s, u);
    }
  }

  lemma OwnerIdHasText(id: Owner)
    requires Nameable(id)
    ensures OwnerId(id) != ""
  {
    ParseOwnerExact(OwnerId(id), id);
    SplitSingle("", '/');
  }

  /** Nobody owns an unstamped node. */
  lemma Unowned(s: State, name: string, node: Node, b: bool)
    requires Inv(s) && node.owner.None?
    ensures OwnersRight(s, name, node, b)
  {
    hide PcOk, ParseOwner, PreBurnIn, Minded, RightWhereOwned, Faithful;
    forall u | u in s.runs ensures !Owns(s.runs[u].id, node) { assert RunOk(s, u); OwnerIdHasText(s.runs[u].id); }
    forall u | u in s.workers ensures !Owns(s.workers[u].id, node) { assert WorkerOk(s, u); OwnerIdHasText(s.workers[u].id); }
  }

  /** A node that keeps its owner keeps its owner's record right. */
  lemma SameOwner(s: State, name: string, node: Node)
    requires Inv(s) && name in s.nodes && node.owner == s.nodes[name].node.owner
    ensures name in s.base && OwnersRight(s, name, node, s.base[name])
  {
    hide PcOk, ParseOwner, PreBurnIn, Minded, Faithful;
    assert NodeOk(s, name);
    forall u | u in s.runs && Owns(s.runs[u].id, node) ensures Says(Recorded(s.runs[u].record), name, s.base[name]) { assert RunOk(s, u); }
    forall u | u in s.workers && Owns(s.workers[u].id, node) ensures Says(Recorded(s.workers[u].memory), name, s.base[name]) {
      assert WorkerOk(s, u);
    }
  }

  /** A node written by a worker that heeds it is right for that worker's run, and for nobody else to mind. */
  lemma WriterRight(s: State, u: string, name: string, node: Node)
    requires Inv(s) && u in s.workers && s.workers[u].pc.Writing? && name in s.nodes && Heeds(s, u, name)
    requires node.owner.None? || node.owner == Some(OwnerId(s.workers[u].id))
    ensures name in s.base && OwnersRight(s, name, node, s.base[name])
  {
    hide PcOk, ParseOwner, PreBurnIn, RightWhereOwned, Faithful;
    assert NodeOk(s, name) && WorkerOk(s, u);
    var w := s.workers[u];
    if node.owner.None? {
      Unowned(s, name, node, s.base[name]);
    } else {
      forall v | v in s.runs && Owns(s.runs[v].id, node) ensures Says(Recorded(s.runs[v].record), name, s.base[name]) {
        assert RunOk(s, v);
        OwnerIdInjective(s.runs[v].id, w.id);
      }
      forall v | v in s.workers && Owns(s.workers[v].id, node) ensures Says(Recorded(s.workers[v].memory), name, s.base[name]) {
        assert WorkerOk(s, v);
        OwnerIdInjective(s.workers[v].id, w.id);
      }
    }
  }

  /** The stamp a worker writes reads back as that worker's own run. */
  lemma OwnStampReads(s: State, id: Owner, node: Node)
    requires Nameable(id) && (node.owner.None? || node.owner == Some(OwnerId(id)))
    ensures node.owner != Some("")
    ensures ParseOwner(Value(node.owner)).Some? ==> ParseOwner(Value(node.owner)).value == id
  {
    ParseOwnerExact(OwnerId(id), id);
    SplitSingle("", '/');
  }

  /** What a worker may write depends on the nodes, their base and the clock alone. */
  lemma PcSame(s: State, t: State, w: Worker)
    requires PcOk(s, w) && t.nodes == s.nodes && t.clock == s.clock && t.base == s.base
    ensures PcOk(t, w)
  {
    hide PreBurnIn;
  }

  /** Changing one worker's pc, memory untouched. */
  lemma PcKeeps(s: State, u: string, pc: Pc)
    requires Inv(s) && u in s.workers && WorkerOk(WithPc(s, u, pc), u)
    ensures Inv(WithPc(s, u, pc))
  {
    WorkerKeeps(s, u, s.workers[u].(pc := pc));
  }

  /** Changing one worker. */
  lemma WorkerKeeps(s: State, u: string, w: Worker)
    requires Inv(s) && WorkerOk(s.(workers := s.workers[u := w]), u)
    ensures Inv(s.(workers := s.workers[u := w]))
  {
    hide PcOk, ParseOwner, PreBurnIn, Faithful, RightWhereOwned, Minded;
    var t := s.(workers := s.workers[u := w]);
    forall n | n in t.nodes ensures NodeOk(t, n) { assert NodeOk(s, n); }
    forall v | v in t.runs ensures RunOk(t, v) { assert RunOk(s, v); RecordSame(s, t, v); }
    forall v | v in t.workers ensures WorkerOk(t, v) {
      if v != u { assert WorkerOk(s, v); PcSame(s, t, s.workers[v]); MindSame(s, t, v); }
    }
    forall q | q in t.reapers ensures ReapOk(t, q) { assert ReapOk(s, q); }
  }

  lemma RecordSame(s: State, t: State, v: string)
    requires v in s.runs && t.nodes == s.nodes && t.base == s.base
    ensures forall rec :: Faithful(s, rec) ==> Faithful(t, rec)
    ensures forall id, rec :: RightWhereOwned(s, id, rec) ==> RightWhereOwned(t, id, rec)
  {
  }

  lemma MindSame(s: State, t: State, v: string)
    requires v in s.workers && v in t.workers && t.workers[v] == s.workers[v] && t.nodes == s.nodes && t.base == s.base
    requires v in t.runs && !t.runs[v].deleting ==> v in s.runs && !s.runs[v].deleting
    ensures Minded(s, v) ==> Minded(t, v)
    ensures RightWhereOwned(s, s.workers[v].id, Recorded(s.workers[v].memory)) ==> RightWhereOwned(t, s.workers[v].id, Recorded(s.workers[v].memory))
  {
  }

  lemma DropWorkerKeeps(s: State, u: string)
    requires Inv(s)
    ensures Inv(s.(workers := s.workers - {u}))
  {
    hide PcOk, ParseOwner, PreBurnIn, Faithful, RightWhereOwned, Minded;
    var t := s.(workers := s.workers - {u});
    forall n | n in t.nodes ensures NodeOk(t, n) { assert NodeOk(s, n); }
    forall v | v in t.runs ensures RunOk(t, v) { assert RunOk(s, v); RecordSame(s, t, v); }
    forall v | v in t.workers ensures WorkerOk(t, v) { assert WorkerOk(s, v); PcSame(s, t, s.workers[v]); MindSame(s, t, v); }
    forall q | q in t.reapers ensures ReapOk(t, q) { assert ReapOk(s, q); }
  }

  /** Updating an existing run, identity kept and record right. */
  lemma RunKeeps(s: State, u: string, r: RunObj)
    requires Inv(s) && u in s.runs && r.id == s.runs[u].id && (s.runs[u].deleting ==> r.deleting)
    requires Holds(r) ==> Faithful(s, Recorded(r.record))
    requires RightWhereOwned(s, r.id, Recorded(r.record)) && (r.life.Waiting? ==> r.record.None?) && (r.life.Active? ==> r.pinned)
    requires u in s.workers ==>
      && (r.life.Done? ==> s.workers[u].pc.Listing? || s.workers[u].pc.Clearing?)
      && (s.workers[u].pc.Capturing? ==> r.pinned)
      && (!s.workers[u].pc.Capturing? ==> s.workers[u].memory == r.record)
    ensures Inv(WithRun(s, u, r))
  {
    hide PcOk, ParseOwner, PreBurnIn, Faithful, RightWhereOwned, Minded;
    var t := WithRun(s, u, r);
    assert RunOk(s, u);
    forall n | n in t.nodes ensures NodeOk(t, n) { assert NodeOk(s, n); }
    forall v | v in t.runs ensures RunOk(t, v) { assert RunOk(s, v); RecordSame(s, t, v); }
    forall v | v in t.workers ensures WorkerOk(t, v) { assert WorkerOk(s, v); PcSame(s, t, s.workers[v]); MindSame(s, t, v); }
    forall q | q in t.reapers ensures ReapOk(t, q) { assert ReapOk(s, q); }
  }

  /** The base of a node that is not there may move. */
  lemma RebaseKeeps(s: State, name: string, b: bool)
    requires Inv(s) && name !in s.nodes
    ensures Inv(s.(base := s.base[name := b]))
  {
    var t := s.(base := s.base[name := b]);
    forall n | n in t.nodes ensures NodeOk(t, n) { assert NodeOk(s, n); }
    forall u | u in t.runs ensures RunOk(t, u) { assert RunOk(s, u); }
    forall u | u in t.workers ensures WorkerOk(t, u) { assert WorkerOk(s, u); }
    forall r | r in t.reapers ensures ReapOk(t, r) { assert ReapOk(s, r); }
  }

  lemma CreateKeeps(s: State, id: Owner)
    requires Inv(s) && Enabled(s, CreateRun(id))
    ensures Inv(Apply(s, CreateRun(id)))
  {
    hide PcOk, ParseOwner, PreBurnIn, Minded;
    var t := Apply(s, CreateRun(id));
    forall n | n in t.nodes ensures NodeOk(t, n) { assert NodeOk(s, n); }
    forall v | v in t.runs ensures RunOk(t, v) { if v in s.runs { assert RunOk(s, v); } }
    forall v | v in t.workers ensures WorkerOk(t, v) { assert WorkerOk(s, v); PcSame(s, t, s.workers[v]); MindSame(s, t, v); }
    forall q | q in t.reapers ensures ReapOk(t, q) { assert ReapOk(s, q); }
  }

  lemma VanishKeeps(s: State, u: string)
    requires Inv(s)
    ensures Inv(s.(runs := s.runs - {u}))
  {
    hide PcOk, ParseOwner, PreBurnIn, Faithful, RightWhereOwned, Minded;
    var t := s.(runs := s.runs - {u});
    forall n | n in t.nodes ensures NodeOk(t, n) { assert NodeOk(s, n); }
    forall v | v in t.runs ensures RunOk(t, v) { assert RunOk(s, v); RecordSame(s, t, v); }
    forall v | v in t.workers ensures WorkerOk(t, v) { assert WorkerOk(s, v); PcSame(s, t, s.workers[v]); MindSame(s, t, v); }
    forall q | q in t.reapers ensures ReapOk(t, q) { assert ReapOk(s, q); }
  }

  lemma BeginKeeps(s: State, u: string)
    requires Inv(s) && Enabled(s, Begin(u))
    ensures Inv(Apply(s, Begin(u)))
  {
    var r := s.runs[u];
    assert RunOk(s, u);
    if !(FirstPc(r).Listing? && !r.finalizer) {
      var w := Worker(r.id, FirstPc(r), r.record);
      assert WorkerOk(s.(workers := s.workers[u := w]), u);
      hide Inv;
      WorkerKeeps(s, u, w);
    }
  }

  lemma CaptureKeeps(s: State, u: string, name: string)
    requires Inv(s) && Enabled(s, Capture(u, name))
    ensures Inv(Apply(s, Capture(u, name)))
  {
    var t := Apply(s, Capture(u, name));
    assert NodeOk(s, name) && WorkerOk(s, u);
    assert WorkerOk(t, u);
    hide Inv;
    WorkerKeeps(s, u, t.workers[u]);
  }

  lemma ReapersKeep(s: State, reapers: set<Reap>)
    requires Inv(s) && forall r :: r in reapers ==> ReapOk(s, r)
    ensures Inv(s.(reapers := reapers))
  {
    hide PcOk, ParseOwner, PreBurnIn, Faithful, RightWhereOwned, Minded;
    var t := s.(reapers := reapers);
    forall n | n in t.nodes ensures NodeOk(t, n) { assert NodeOk(s, n); }
    forall v | v in t.runs ensures RunOk(t, v) { assert RunOk(s, v); RecordSame(s, t, v); }
    forall v | v in t.workers ensures WorkerOk(t, v) { assert WorkerOk(s, v); PcSame(s, t, s.workers[v]); MindSame(s, t, v); }
    forall q | q in t.reapers ensures ReapOk(t, q) { assert ReapOk(s, q); }
  }

  lemma NodeDeleteKeeps(s: State, name: string)
    requires Inv(s)
    ensures Inv(s.(nodes := s.nodes - {name}))
  {
    hide PcOk, ParseOwner, PreBurnIn, Faithful, RightWhereOwned, Minded;
    var t := s.(nodes := s.nodes - {name});
    forall n | n in t.nodes ensures NodeOk(t, n) { assert NodeOk(s, n); }
    forall v | v in t.runs ensures RunOk(t, v) { assert RunOk(s, v); DeletedRecord(s, name, s.runs[v].id, Recorded(s.runs[v].record)); }
    forall v | v in t.workers ensures WorkerOk(t, v) {
      assert WorkerOk(s, v);
      DeletedPc(s, name, s.workers[v]);
      DeletedMind(s, name, v);
      DeletedRecord(s, name, s.workers[v].id, Recorded(s.workers[v].memory));
    }
    forall q | q in t.reapers ensures ReapOk(t, q) { assert ReapOk(s, q); }
  }

  lemma DeletedRecord(s: State, name: string, id: Owner, rec: Record)
    ensures Faithful(s, rec) ==> Faithful(s.(nodes := s.nodes - {name}), rec)
    ensures RightWhereOwned(s, id, rec) ==> RightWhereOwned(s.(nodes := s.nodes - {name}), id, rec)
  {
  }

  lemma DeletedPc(s: State, name: string, w: Worker)
    requires PcOk(s, w)
    ensures PcOk(s.(nodes := s.nodes - {name}), w)
  {
    hide PreBurnIn;
  }

  lemma DeletedMind(s: State, name: string, v: string)
    requires v in s.workers && Minded(s, v)
    ensures Minded(s.(nodes := s.nodes - {name}), v)
  {
  }

  /** What a read plans to write is sound for the version read. */
  lemma CordonReadKeeps(s: State, u: string, name: string, heat: Heat)
    requires Inv(s) && Enabled(s, CordonRead(u, name, heat))
    ensures Inv(Apply(s, CordonRead(u, name, heat)))
  {
    var w, vn := s.workers[u], s.nodes[name];
    assert NodeOk(s, name) && WorkerOk(s, u);
    CordonReader(s, u, name, heat);
    hide Inv, WorkerOk, NodeOk, CordonStates, AfterWrites, PreBurnIn, ParseOwner;
    PcKeeps(s, u, AfterWrites(name, vn.version, CordonStates(vn.node, w.id, Recorded(w.memory), name, heat)[1..]));
  }

  /** The reader itself, with its writes planned. */
  lemma CordonReader(s: State, u: string, name: string, heat: Heat)
    requires u in s.workers && name in s.nodes && s.workers[u].pc.Stepping? && WorkerOk(s, u) && NodeOk(s, name)
    ensures var w, vn := s.workers[u], s.nodes[name];
            var states := CordonStates(vn.node, w.id, Recorded(w.memory), name, heat);
            WorkerOk(WithPc(s, u, AfterWrites(name, vn.version, states[1..])), u)
  {
    var w, vn := s.workers[u], s.nodes[name];
    var rec := Recorded(w.memory);
    var states := CordonStates(vn.node, w.id, rec, name, heat);
    var t := WithPc(s, u, AfterWrites(name, vn.version, states[1..]));
    forall i | 0 <= i < |states[1..]| ensures WriteOk(t, w.id, name, states[1..][i]) {
      CordonKeepsPrior(vn.node, w.id, rec, name, heat, i + 1);
    }
    OwnerIdHasText(w.id);
    hide CordonStates, ParseOwner, PreBurnIn, RightWhereOwned, WriteOk;
    MovedOn(s, t, w);
  }

  lemma ReleaseReadKeeps(s: State, u: string, name: string)
    requires Inv(s) && Enabled(s, ReleaseRead(u, name))
    ensures Inv(Apply(s, ReleaseRead(u, name)))
  {
    var w, vn := s.workers[u], s.nodes[name];
    assert NodeOk(s, name) && WorkerOk(s, u);
    ReleaseRestores(vn.node, w.id, Recorded(w.memory), name);
    assert WorkerOk(WithPc(s, u, Writing(name, vn.version, [Released(vn.node, w.id, Recorded(w.memory), name)])), u);
    PcKeeps(s, u, Writing(name, vn.version, [Released(vn.node, w.id, Recorded(w.memory), name)]));
  }

  lemma NodeWriteKeeps(s: State, u: string)
    requires Inv(s) && Enabled(s, NodeWrite(u))
    ensures Inv(Apply(s, NodeWrite(u)))
  {
    var w := s.workers[u];
    var name, rest := w.pc.name, w.pc.rest;
    assert WorkerOk(s, u) && WriteOk(s, w.id, name, rest[0]);
    OwnStampReads(s, w.id, rest[0]);
    InvAgreed(s, name);
    WriterRight(s, u, name, rest[0]);
    PutKeeps(s, name, rest[0]);
    WriterGoesOn(s, u);
    hide Inv;
    PcKeeps(Put(s, name, rest[0]), u, AfterWrites(name, s.clock, rest[1..]));
  }

  /** A worker that has just written may go on with what is left. */
  lemma WriterGoesOn(s: State, u: string)
    requires Inv(s) && Enabled(s, NodeWrite(u)) && Inv(Put(s, s.workers[u].pc.name, s.workers[u].pc.rest[0]))
    ensures var pc := s.workers[u].pc;
            WorkerOk(WithPc(Put(s, pc.name, pc.rest[0]), u, AfterWrites(pc.name, s.clock, pc.rest[1..])), u)
  {
    hide PreBurnIn, ParseOwner, RightWhereOwned, Minded;
    var w := s.workers[u];
    var name, rest := w.pc.name, w.pc.rest;
    var t := Put(s, name, rest[0]);
    assert WorkerOk(s, u) && WorkerOk(t, u);
    WriterMinds(s, u);
    var next := WithPc(t, u, AfterWrites(name, s.clock, rest[1..]));
    MovedOn(t, next, w);
    if rest[1..] != [] {
      forall i | 0 <= i < |rest[1..]| ensures WriteOk(next, w.id, name, rest[1..][i]) { assert WriteOk(s, w.id, name, rest[i + 1]); }
      assert WriteOk(s, w.id, name, rest[0]);
    }
  }

  lemma WriterMinds(s: State, u: string)
    requires Inv(s) && Enabled(s, NodeWrite(u)) && Inv(Put(s, s.workers[u].pc.name, s.workers[u].pc.rest[0]))
    ensures var pc := s.workers[u].pc;
            Minded(WithPc(Put(s, pc.name, pc.rest[0]), u, AfterWrites(pc.name, s.clock, pc.rest[1..])), u)
  {
    hide PreBurnIn, ParseOwner, PcOk;
    assert WorkerOk(s, u);
  }

  lemma MovedOn(s: State, t: State, w: Worker)
    requires t.nodes == s.nodes && t.base == s.base
    ensures RightWhereOwned(s, w.id, Recorded(w.memory)) ==> RightWhereOwned(t, w.id, Recorded(w.memory))
  {
  }

  lemma ClearWriteKeeps(s: State, u: string, name: string)
    requires Inv(s) && Enabled(s, ClearWrite(u, name))
    ensures Inv(Apply(s, ClearWrite(u, name)))
  {
    var w := s.workers[u];
    var node := w.pc.todo[name].node;
    assert WorkerOk(s, u) && NodeOk(s, name);
    ReleaseRestores(node, w.id, Recorded(w.memory), name);
    var freed := Released(node, w.id, Recorded(w.memory), name);
    OwnStampReads(s, w.id, freed);
    InvAgreed(s, name);
    Unowned(s, name, freed, s.base[name]);
    PutKeeps(s, name, freed);
    var t := Put(s, name, freed);
    hide Released;
    ClearerGoesOn(t, u, name);
    hide Inv;
    PcKeeps(t, u, Clearing(w.pc.todo - {name}));
  }

  lemma ClearerGoesOn(t: State, u: string, name: string)
    requires Inv(t) && u in t.workers && t.workers[u].pc.Clearing?
    ensures WorkerOk(WithPc(t, u, Clearing(t.workers[u].pc.todo - {name})), u)
  {
    hide PreBurnIn, ParseOwner, RightWhereOwned;
    assert WorkerOk(t, u);
    MovedOn(t, WithPc(t, u, Clearing(t.workers[u].pc.todo - {name})), t.workers[u]);
  }

  lemma ReapWriteKeeps(s: State, r: Reap)
    requires Inv(s) && Enabled(s, ReapWrite(r))
    ensures Inv(Apply(s, ReapWrite(r)))
  {
    assert ReapOk(s, r) && NodeOk(s, r.name);
    ParseOwnerExact(Value(r.read.node.owner), r.owner);
    var freed := Reaped(r.read.node, r.owner);
    OwnStampReads(s, r.owner, freed);
    InvAgreed(s, r.name);
    Unowned(s, r.name, freed, s.base[r.name]);
    PutKeeps(s, r.name, freed);
    var t := Put(s, r.name, freed);
    forall q | q in t.reapers - {r} ensures ReapOk(t, q) {}
    ReapersKeep(t, s.reapers - {r});
  }

  lemma PinKeeps(s: State, u: string)
    requires Inv(s) && Enabled(s, Pin(u))
    ensures Inv(Apply(s, Pin(u)))
  {
    assert RunOk(s, u) && WorkerOk(s, u);
    var r := s.runs[u].(pinned := true, finalizer := true);
    RunKeeps(s, u, r);
    assert WorkerOk(WithPc(WithRun(s, u, r), u, Capturing(r.record.None?)), u);
    PcKeeps(WithRun(s, u, r), u, Capturing(r.record.None?));
  }

  lemma MarkKeeps(s: State, u: string)
    requires Inv(s) && Enabled(s, Mark(u))
    ensures Inv(Apply(s, Mark(u)))
  {
    assert RunOk(s, u) && WorkerOk(s, u);
    var r := s.runs[u].(life := Active, record := s.workers[u].memory);
    RunKeeps(s, u, r);
    DropWorkerKeeps(WithRun(s, u, r), u);
  }

  lemma TerminateKeeps(s: State, u: string)
    requires Inv(s) && Enabled(s, Terminate(u))
    ensures Inv(Apply(s, Terminate(u)))
  {
    assert RunOk(s, u) && WorkerOk(s, u);
    assert WorkerOk(WithPc(s, u, Listing), u);
    PcKeeps(s, u, Listing);
    var t := WithPc(s, u, Listing);
    RunKeeps(t, u, s.runs[u].(life := Done));
    assert WithRun(t, u, s.runs[u].(life := Done)) == WithPc(WithRun(s, u, s.runs[u].(life := Done)), u, Listing);
  }

  lemma DropFinalizerKeeps(s: State, u: string)
    requires Inv(s) && Enabled(s, DropFinalizer(u))
    ensures Inv(Apply(s, DropFinalizer(u)))
  {
    assert RunOk(s, u) && WorkerOk(s, u);
    var r := s.runs[u].(finalizer := false);
    RunKeeps(s, u, r);
    DropWorkerKeeps(WithRun(s, u, r), u);
  }

  /** The single-field edits of a run. */
  lemma RunEditKeeps(s: State, a: Action)
    requires Inv(s) && Enabled(s, a) && (a.AddFinalizer? || a.DeleteRun? || a.ForceFinalizer?)
    ensures Inv(Apply(s, a))
  {
    assert RunOk(s, a.uid);
    if a.uid in s.workers { assert WorkerOk(s, a.uid); }
    RunKeeps(s, a.uid, Apply(s, a).runs[a.uid]);
  }

  /** A node replaced from outside: the old object goes, the base moves, the new object arrives. */
  lemma ReplaceKeeps(s: State, name: string, node: Node)
    requires Inv(s) && node.owner != Some("")
    requires Agreed(s, name, PreBurnIn(node)) && OwnersRight(s, name, node, PreBurnIn(node))
    requires ParseOwner(Value(node.owner)).Some? ==>
               var o := ParseOwner(Value(node.owner)).value;
               o.uid in s.used && (o.uid in s.runs ==> s.runs[o.uid].id == o)
    ensures Inv(Put(s, name, node).(base := s.base[name := PreBurnIn(node)]))
  {
    hide Inv;
    NodeDeleteKeeps(s, name);
    var gone := s.(nodes := s.nodes - {name});
    RebaseKeeps(gone, name, PreBurnIn(node));
    var moved := gone.(base := s.base[name := PreBurnIn(node)]);
    assert Agreed(moved, name, PreBurnIn(node)) && OwnersRight(moved, name, node, PreBurnIn(node));
    PutKeeps(moved, name, node);
    assert Put(moved, name, node) == Put(s, name, node).(base := s.base[name := PreBurnIn(node)]);
  }

  /** The environment's changes to a node. */
  lemma EnvironmentKeeps(s: State, a: Action)
    requires Inv(s) && Enabled(s, a) && (a.NodeEdit? || a.NodeCreate? || a.NodeDelete?)
    ensures Inv(Apply(s, a))
  {
    if a.NodeEdit? {
      assert NodeOk(s, a.name);
      var node := s.nodes[a.name].node.(unschedulable := a.unschedulable);
      InvAgreed(s, a.name);
      SameOwner(s, a.name, node);
      if node.owner.None? { Unowned(s, a.name, node, a.unschedulable); }
      ReplaceKeeps(s, a.name, node);
    } else if a.NodeCreate? {
      SplitSingle("", '/');
      Unowned(s, a.name, Node(a.unschedulable, None, None, None), a.unschedulable);
      ReplaceKeeps(s, a.name, Node(a.unschedulable, None, None, None));
    } else {
      NodeDeleteKeeps(s, a.name);
    }
  }

  /** The reaper's reads. */
  lemma ReapReadsKeep(s: State, a: Action)
    requires Inv(s) && Enabled(s, a) && (a.ReapRead? || a.ReapCheck? || a.ReapDrop?)
    ensures Inv(Apply(s, a))
  {
    hide ParseOwner, PreBurnIn;
    if a.ReapRead? { assert NodeOk(s, a.name); } else { assert ReapOk(s, a.reap); }
    ReapersKeep(s, Apply(s, a).reapers);
  }

  /** A worker giving up a write, or the whole pass. */
  lemma GivingUpKeeps(s: State, a: Action)
    requires Inv(s) && Enabled(s, a) && (a.NodeGone? || a.ClearGone? || a.Crash? || a.Vanish?)
    ensures Inv(Apply(s, a))
  {
    hide Inv, WorkerOk;
    match a
    case NodeGone(u) =>
      GoneGoesOn(s, u);
      PcKeeps(s, u, Stepping);
    case ClearGone(u, n) =>
      ClearerGoesOn(s, u, n);
      PcKeeps(s, u, Clearing(s.workers[u].pc.todo - {n}));
    case Crash(u) => DropWorkerKeeps(s, u);
    case Vanish(u) => VanishKeeps(s, u);
  }

  lemma GoneGoesOn(s: State, u: string)
    requires Inv(s) && Enabled(s, NodeGone(u))
    ensures WorkerOk(WithPc(s, u, Stepping), u)
  {
    hide PreBurnIn, ParseOwner, RightWhereOwned;
    assert WorkerOk(s, u);
    MovedOn(s, WithPc(s, u, Stepping), s.workers[u]);
  }

  lemma ListKeeps(s: State, u: string)
    requires Inv(s) && Enabled(s, List(u))
    ensures Inv(Apply(s, List(u)))
  {
    var todo := OwnNodes(s, s.workers[u].id);
    forall n | n in todo ensures todo[n].version < s.clock { assert NodeOk(s, n); }
    assert WorkerOk(s, u) && WorkerOk(WithPc(s, u, Clearing(todo)), u);
    PcKeeps(s, u, Clearing(todo));
  }

  /** Every action of every actor keeps the invariant. */
  lemma StepKeeps(s: State, a: Action)
    requires Inv(s) && Enabled(s, a)
    ensures Inv(Apply(s, a))
  {
    hide Apply, Enabled, Inv;
    match a
    case CreateRun(id) => CreateKeeps(s, id);
    case Begin(u) => BeginKeeps(s, u);
    case Pin(u) => PinKeeps(s, u);
    case Capture(u, n) => CaptureKeeps(s, u, n);
    case Mark(u) => MarkKeeps(s, u);
    case CordonRead(u, n, h) => CordonReadKeeps(s, u, n, h);
    case ReleaseRead(u, n) => ReleaseReadKeeps(s, u, n);
    case NodeWrite(u) => NodeWriteKeeps(s, u);
    case Terminate(u) => TerminateKeeps(s, u);
    case List(u) => ListKeeps(s, u);
    case ClearWrite(u, n) => ClearWriteKeeps(s, u, n);
    case DropFinalizer(u) => DropFinalizerKeeps(s, u);
    case ReapWrite(r) => ReapWriteKeeps(s, r);
    case AddFinalizer(_) => RunEditKeeps(s, a);
    case DeleteRun(_) => RunEditKeeps(s, a);
    case ForceFinalizer(_) => RunEditKeeps(s, a);
    case NodeEdit(_, _) => EnvironmentKeeps(s, a);
    case NodeCreate(_, _) => EnvironmentKeeps(s, a);
    case NodeDelete(_) => EnvironmentKeeps(s, a);
    case ReapRead(_) => ReapReadsKeep(s, a);
    case ReapCheck(_) => ReapReadsKeep(s, a);
    case ReapDrop(_) => ReapReadsKeep(s, a);
    case _ => GivingUpKeeps(s, a);
  }

  lemma {:induction false} TraceKeeps(s: State, trace: seq<Action>)
    requires Inv(s) && Possible(s, trace)
    ensures Inv(After(s, trace))
    decreases |trace|
  {
    if trace != [] {
      StepKeeps(s, trace[0]);
      TraceKeeps(Apply(s, trace[0]), trace[1..]);
    }
  }

  // ---------------------------------------------------------------- what it means

  /** The state is reachable from a cluster burn-in has just met. */
  ghost predicate Reachable(s: State) {
    exists s0, trace :: Init(s0) && Possible(s0, trace) && After(s0, trace) == s
  }

  lemma ReachableInv(s: State)
    requires Reachable(s)
    ensures Inv(s)
  {
    var s0, trace :| Init(s0) && Possible(s0, trace) && After(s0, trace) == s;
    InitInv(s0);
    TraceKeeps(s0, trace);
  }

  /**
    In every reachable state, every unstamped node has its pre-burn-in
    schedulability and every stamped node has it on record.
  */
  lemma CordonIsTemporary(s: State, name: string)
    requires Reachable(s) && name in s.nodes
    ensures name in s.base
    ensures var node := s.nodes[name].node;
            if node.owner.None? then node.unschedulable == s.base[name]
            else (node.prior == Some(PRIOR_TRUE)) == s.base[name]
  {
    ReachableInv(s);
    assert NodeOk(s, name);
  }

  /** Nobody outside burn-in changes this node's schedulability. */
  predicate LeftAlone(trace: seq<Action>, name: string) {
    forall i :: 0 <= i < |trace| ==>
      !(trace[i].NodeEdit? && trace[i].name == name) && !(trace[i].NodeCreate? && trace[i].name == name)
  }

  lemma BaseMovesOnlyByHand(s: State, a: Action, name: string)
    requires Enabled(s, a) && name in s.base
    requires !(a.NodeEdit? && a.name == name) && !(a.NodeCreate? && a.name == name)
    ensures name in Apply(s, a).base && Apply(s, a).base[name] == s.base[name]
  {
    hide Apply, Enabled, PreBurnIn;
    if a.NodeEdit? || a.NodeCreate? {
      ByHand(s, a, name);
    } else {
      BaseStill(s, a);
    }
  }

  lemma ByHand(s: State, a: Action, name: string)
    requires Enabled(s, a) && (a.NodeEdit? || a.NodeCreate?) && a.name != name && name in s.base
    ensures name in Apply(s, a).base && Apply(s, a).base[name] == s.base[name]
  {
    hide Agreed, PreBurnIn;
  }

  lemma BaseStill(s: State, a: Action)
    requires Enabled(s, a) && !a.NodeEdit? && !a.NodeCreate?
    ensures Apply(s, a).base == s.base
  {
    hide Enabled, CordonStates, Released, Reaped, PreBurnIn, OwnNodes, FirstPc, AfterWrites, Recorded, ParseOwner;
  }

  lemma {:induction false} BaseOverTrace(s: State, trace: seq<Action>, name: string)
    requires Possible(s, trace) && name in s.base && LeftAlone(trace, name)
    ensures name in After(s, trace).base && After(s, trace).base[name] == s.base[name]
    decreases |trace|
  {
    if trace != [] {
      BaseMovesOnlyByHand(s, trace[0], name);
      BaseOverTrace(Apply(s, trace[0]), trace[1..], name);
    }
  }

  /**
    Whatever runs, overlaps, crashes, forced deletions and reaps happened in
    between, a node found unstamped before and after is exactly as schedulable as
    it was, unless somebody outside changed it.
  */
  lemma BurnInLeavesNoTrace(s: State, trace: seq<Action>, name: string)
    requires Reachable(s) && Possible(s, trace) && LeftAlone(trace, name)
    requires name in s.nodes && s.nodes[name].node.owner.None?
    requires name in After(s, trace).nodes && After(s, trace).nodes[name].node.owner.None?
    ensures After(s, trace).nodes[name].node.unschedulable == s.nodes[name].node.unschedulable
  {
    ReachableInv(s);
    TraceKeeps(s, trace);
    assert NodeOk(s, name) && NodeOk(After(s, trace), name);
    BaseOverTrace(s, trace, name);
  }

  // ---------------------------------------------------------------- edits from outside

  predicate Unstamped(s: State, name: string) {
    name in s.nodes ==> s.nodes[name].node.owner.None?
  }

  /** A node put in or out of service from outside, or created so, whatever anybody has on record. */
  function Edited(s: State, name: string, b: bool): State {
    var node := if name in s.nodes then s.nodes[name].node.(unschedulable := b) else Node(b, None, None, None);
    Put(s, name, node).(base := s.base[name := PreBurnIn(node)])
  }

  /** The worker has claimed the node and is back to executing. */
  predicate ClaimedBy(s: State, u: string, name: string, rec: Record) {
    && u in s.workers && s.workers[u].pc.Stepping? && Recorded(s.workers[u].memory) == rec
    && name in s.nodes && Owns(s.workers[u].id, s.nodes[name].node)
  }

  /** One more wave: the node is claimed. */
  lemma ClaimWave(s: State, u: string, name: string) returns (trace: seq<Action>)
    requires u in s.workers && s.workers[u].pc.Stepping? && name in s.nodes && s.nodes[name].node.owner.None? && Nameable(s.workers[u].id)
    ensures Possible(s, trace) && LeftAlone(trace, name) && ClaimedBy(After(s, trace), u, name, Recorded(s.workers[u].memory))
  {
    var w := s.workers[u];
    var read := CordonRead(u, name, Withdraw);
    var states := CordonStates(s.nodes[name].node, w.id, Recorded(w.memory), name, Withdraw);
    OwnerIdHasText(w.id);
    var s1 := Apply(s, read);
    var s2 := Apply(s1, NodeWrite(u));
    if |states| == 2 {
      assert states[1..][1..] == [];
      TwoSteps(s, read, NodeWrite(u));
      trace := [read, NodeWrite(u)];
    } else {
      assert states[1..][1..] == [states[2]] && [states[2]][1..] == [];
      var s3 := Apply(s2, NodeWrite(u));
      ThreeSteps(s, read, NodeWrite(u), NodeWrite(u));
      trace := [read, NodeWrite(u), NodeWrite(u)];
      assert After(s, trace) == s3;
    }
  }

  /** And given back: to what the record says, if it says anything. */
  lemma ReleaseWave(s: State, u: string, name: string, rec: Record)
    requires ClaimedBy(s, u, name, rec) && name in rec
    ensures var trace := [ReleaseRead(u, name), NodeWrite(u)];
            && Possible(s, trace)
            && name in After(s, trace).nodes
            && var node := After(s, trace).nodes[name].node; node.owner.None? && node.unschedulable == rec[name]
  {
    var s1 := Apply(s, ReleaseRead(u, name));
    var freed := Released(s.nodes[name].node, s.workers[u].id, rec, name);
    assert [freed][1..] == [];
    TwoSteps(s, ReleaseRead(u, name), NodeWrite(u));
  }

  lemma TwoSteps(s: State, a: Action, b: Action)
    requires Enabled(s, a) && Enabled(Apply(s, a), b)
    ensures Possible(s, [a, b]) && After(s, [a, b]) == Apply(Apply(s, a), b)
  {
    hide Enabled, Apply;
    var s1 := Apply(s, a);
    assert [a, b][1..] == [b] && [b][1..] == [];
    var s2 := Apply(s1, b);
    assert Possible(s2, []) && After(s2, []) == s2;
    assert Possible(s1, [b]) && After(s1, [b]) == s2;
  }

  lemma {:induction false} StepsConcat(s: State, first: seq<Action>, second: seq<Action>)
    requires Possible(s, first) && Possible(After(s, first), second)
    ensures Possible(s, first + second) && After(s, first + second) == After(After(s, first), second)
    decreases |first|
  {
    hide Enabled, Apply;
    if first == [] {
      assert first + second == second;
    } else {
      StepsConcat(Apply(s, first[0]), first[1..], second);
      assert (first + second)[1..] == first[1..] + second;
    }
  }

  /** A history in which nobody outside touches the node's schedulability, and burn-in alone changes it. */
  predicate TakesAway(t: State, trace: seq<Action>, name: string, b: bool) {
    && Possible(t, trace) && LeftAlone(trace, name)
    && name in After(t, trace).nodes
    && var node := After(t, trace).nodes[name].node; node.owner.None? && node.unschedulable != b
  }

  /** An executing run's next wave claims the node and gives it back to what the run has on record. */
  lemma LostToAWave(t: State, u: string, name: string, b: bool) returns (trace: seq<Action>)
    requires u in t.workers && t.workers[u].pc.Stepping? && Nameable(t.workers[u].id)
    requires name in t.nodes && t.nodes[name].node.owner.None? && !Says(Recorded(t.workers[u].memory), name, b)
    ensures TakesAway(t, trace, name, b)
  {
    hide Possible, After, Enabled, Apply;
    var rec := Recorded(t.workers[u].memory);
    var claim := ClaimWave(t, u, name);
    ReleaseWave(After(t, claim), u, name, rec);
    trace := claim + [ReleaseRead(u, name), NodeWrite(u)];
    StepsConcat(t, claim, [ReleaseRead(u, name), NodeWrite(u)]);
  }

  lemma Prefixed(t: State, first: seq<Action>, rest: seq<Action>, name: string, b: bool)
    requires Possible(t, first) && LeftAlone(first, name) && TakesAway(After(t, first), rest, name, b)
    ensures TakesAway(t, first + rest, name, b)
  {
    hide Possible, After, Enabled, Apply;
    StepsConcat(t, first, rest);
  }

  lemma OneStep(t: State, a: Action)
    requires Enabled(t, a)
    ensures Possible(t, [a]) && After(t, [a]) == Apply(t, a)
  {
    hide Enabled, Apply;
    var t1 := Apply(t, a);
    assert [a][1..] == [];
    assert Possible(t1, []) && After(t1, []) == t1;
  }

  /** A run between passes takes up its work and its record where it left them. */
  lemma LostBetweenPasses(t: State, u: string, name: string, b: bool) returns (trace: seq<Action>)
    requires u in t.runs && u !in t.workers && t.runs[u].life.Active? && t.runs[u].pinned && !t.runs[u].deleting && Nameable(t.runs[u].id)
    requires name in t.nodes && t.nodes[name].node.owner.None? && !Says(Recorded(t.runs[u].record), name, b)
    ensures TakesAway(t, trace, name, b)
  {
    var t1 := Apply(t, Begin(u));
    assert t1.workers[u] == Worker(t.runs[u].id, Stepping, t.runs[u].record) && t1.nodes == t.nodes;
    OneStep(t, Begin(u));
    var wave := LostToAWave(t1, u, name, b);
    hide TakesAway;
    Prefixed(t, [Begin(u)], wave, name, b);
    trace := [Begin(u)] + wave;
  }

  /** A run that may still cordon, whatever its reconcile is doing: that reconcile may crash. */
  lemma LostToARun(t: State, u: string, name: string, b: bool) returns (trace: seq<Action>)
    requires u in t.runs && Nameable(t.runs[u].id) && !t.runs[u].deleting && t.runs[u].life.Active? && t.runs[u].pinned
    requires name in t.nodes && t.nodes[name].node.owner.None? && !Says(Recorded(t.runs[u].record), name, b)
    ensures TakesAway(t, trace, name, b)
  {
    if u in t.workers {
      OneStep(t, Crash(u));
      var t1 := Apply(t, Crash(u));
      var rest := LostBetweenPasses(t1, u, name, b);
      hide TakesAway;
      Prefixed(t, [Crash(u)], rest, name, b);
      trace := [Crash(u)] + rest;
    } else {
      trace := LostBetweenPasses(t, u, name, b);
    }
  }

  /** A reconcile that is writing to another node, should that node be deleted under it, goes on to the next. */
  lemma LostAfterAWrite(t: State, u: string, name: string, b: bool) returns (trace: seq<Action>)
    requires u in t.workers && t.workers[u].pc.Writing? && t.workers[u].pc.name != name && Nameable(t.workers[u].id)
    requires name in t.nodes && t.nodes[name].node.owner.None? && !Says(Recorded(t.workers[u].memory), name, b)
    ensures TakesAway(t, trace, name, b)
  {
    var m := t.workers[u].pc.name;
    var gone := if m in t.nodes then Apply(t, NodeDelete(m)) else t;
    var next := Apply(gone, NodeGone(u));
    var first := if m in t.nodes then [NodeDelete(m), NodeGone(u)] else [NodeGone(u)];
    if m in t.nodes { TwoSteps(t, NodeDelete(m), NodeGone(u)); } else { OneStep(t, NodeGone(u)); }
    assert After(t, first) == next;
    var rest := LostToAWave(next, u, name, b);
    hide TakesAway;
    Prefixed(t, first, rest, name, b);
    trace := first + rest;
  }

  /** A reconcile that is recording its targets can still put what it recorded on its run. */
  lemma LostAfterCapture(t: State, u: string, name: string, b: bool) returns (trace: seq<Action>)
    requires u in t.workers && t.workers[u].pc.Capturing? && u in t.runs && !t.runs[u].deleting && t.runs[u].pinned && Nameable(t.runs[u].id)
    requires name in t.nodes && t.nodes[name].node.owner.None? && !Says(Recorded(t.workers[u].memory), name, b)
    ensures TakesAway(t, trace, name, b)
  {
    var t1 := Apply(t, Mark(u));
    OneStep(t, Mark(u));
    var rest := LostBetweenPasses(t1, u, name, b);
    hide TakesAway;
    Prefixed(t, [Mark(u)], rest, name, b);
    trace := [Mark(u)] + rest;
  }

  /** Where a record that can still be acted on disagrees, the edit can be taken away. */
  lemma DisagreementLoses(s: State, name: string, b: bool) returns (trace: seq<Action>)
    requires Inv(s) && Unstamped(s, name) && !Agreed(s, name, b)
    ensures TakesAway(Edited(s, name, b), trace, name, b)
  {
    hide TakesAway, ParseOwner, PcOk;
    var t := Edited(s, name, b);
    if u :| u in s.runs && Holds(s.runs[u]) && !Says(Recorded(s.runs[u].record), name, b) {
      assert RunOk(s, u);
      trace := LostToARun(t, u, name, b);
    } else {
      var u :| u in s.workers && MayClaim(s, u, name) && !Says(Recorded(s.workers[u].memory), name, b);
      assert WorkerOk(s, u);
      match s.workers[u].pc
      case Stepping => trace := LostToAWave(t, u, name, b);
      case Writing(_, _, _) => trace := LostAfterAWrite(t, u, name, b);
      case Capturing(_) =>
        assert RunOk(s, u);
        trace := LostAfterCapture(t, u, name, b);
    }
  }

  /** No history after the edit, short of another edit from outside, leaves the node unstamped and otherwise than edited. */
  ghost predicate EditKept(s: State, name: string, b: bool) {
    forall trace :: !TakesAway(Edited(s, name, b), trace, name, b)
  }

  /**
    Exactly which outside edits of an unstamped node burn-in can take away, the creation of a
    node included. In every reachable state an edit is kept by every history if and only if it agrees with each record of the
    node that can still be acted on: by a run neither finished nor being deleted, or by a
    reconcile in flight that may yet claim the node.
  */
  lemma EditKeptExactly(s: State, name: string, b: bool)
    requires Reachable(s) && Unstamped(s, name)
    ensures EditKept(s, name, b) <==> Agreed(s, name, b)
  {
    ReachableInv(s);
    if Agreed(s, name, b) {
      forall trace ensures !TakesAway(Edited(s, name, b), trace, name, b) {
        AgreedKeeps(s, name, b, trace);
      }
    } else {
      var trace := DisagreementLoses(s, name, b);
    }
  }

  lemma AgreedKeeps(s: State, name: string, b: bool, trace: seq<Action>)
    requires Inv(s) && Unstamped(s, name) && Agreed(s, name, b)
    ensures !TakesAway(Edited(s, name, b), trace, name, b)
  {
    var edit := if name in s.nodes then NodeEdit(name, b) else NodeCreate(name, b);
    var t := Apply(s, edit);
    assert t == Edited(s, name, b);
    StepKeeps(s, edit);
    if Possible(t, trace) && LeftAlone(trace, name) && name in After(t, trace).nodes {
      hide Enabled, Apply, Possible, After, Inv;
      TraceKeeps(t, trace);
      BaseOverTrace(t, trace, name);
      BaseIsSchedulability(t, name);
      BaseIsSchedulability(After(t, trace), name);
    }
  }

  lemma BaseIsSchedulability(s: State, name: string)
    requires Inv(s) && name in s.nodes
    ensures name in s.base && (s.nodes[name].node.owner.None? ==> s.nodes[name].node.unschedulable == s.base[name])
  {
    assert NodeOk(s, name);
  }

  // ---------------------------------------------------------------- whose writes touch a stamped node

  /** The owner's own write to this node, or the reaper's once the owner is gone. */
  predicate TouchedBy(s: State, a: Action, name: string, owner: Owner) {
    || (a == NodeWrite(owner.uid) && At(s, owner.uid) && s.workers[owner.uid].id == owner
        && s.workers[owner.uid].pc.Writing? && s.workers[owner.uid].pc.name == name)
    || (a == ClearWrite(owner.uid, name) && At(s, owner.uid) && s.workers[owner.uid].id == owner)
    || (a.ReapWrite? && a.reap.name == name && a.reap.owner == owner && owner.uid !in s.runs)
    || a == NodeDelete(name)
  }

  /**
    A stamp stays until its owner gives it back. In every reachable state, any action changes
    a node stamped for an owner only if it is that owner's own write, a reaper's write with
    the owner gone, or the node's deletion; an outside edit changes its schedulability alone.
    No run ever uncordons or takes over a node stamped for somebody else.
  */
  lemma StampStays(s: State, a: Action, name: string, owner: Owner)
    requires Reachable(s) && Enabled(s, a) && Nameable(owner)
    requires name in s.nodes && s.nodes[name].node.owner == Some(OwnerId(owner)) && !TouchedBy(s, a, name, owner)
    ensures var t := Apply(s, a);
            && name in t.nodes
            && t.nodes[name].node == s.nodes[name].node.(unschedulable := t.nodes[name].node.unschedulable)
            && (!(a.NodeEdit? && a.name == name) ==> t.nodes[name] == s.nodes[name])
  {
    ReachableInv(s);
    hide Reachable, Inv, Enabled, Apply, ParseOwner, CordonStates, Released, Reaped;
    match a
    case NodeWrite(u) => ForeignWrite(s, u, name, owner);
    case ClearWrite(u, n) => ForeignClear(s, u, n, name, owner);
    case ReapWrite(r) => ForeignReap(s, r, name, owner);
    case NodeEdit(n, b) => EditOfNode(s, n, b, name);
    case NodeCreate(_, _) => OtherNode(s, a, name);
    case NodeDelete(_) => OtherNode(s, a, name);
    case _ => NodesStill(s, a);
  }

  lemma EditOfNode(s: State, n: string, b: bool, name: string)
    requires Enabled(s, NodeEdit(n, b)) && name in s.nodes
    ensures var t := Apply(s, NodeEdit(n, b));
            && name in t.nodes
            && t.nodes[name].node == s.nodes[name].node.(unschedulable := t.nodes[name].node.unschedulable)
            && (n != name ==> t.nodes[name] == s.nodes[name])
  {
    hide Agreed;
  }

  lemma OtherNode(s: State, a: Action, name: string)
    requires Enabled(s, a) && (a.NodeCreate? || a.NodeDelete?) && name in s.nodes && a != NodeDelete(name)
    ensures name in Apply(s, a).nodes && Apply(s, a).nodes[name] == s.nodes[name]
  {
    hide Agreed;
  }

  /** Everything else leaves the nodes alone. */
  lemma NodesStill(s: State, a: Action)
    requires Enabled(s, a) && !a.NodeWrite? && !a.ClearWrite? && !a.ReapWrite? && !a.NodeEdit? && !a.NodeCreate? && !a.NodeDelete?
    ensures Apply(s, a).nodes == s.nodes
  {
    hide Enabled, CordonStates, Released, Reaped, PreBurnIn, OwnNodes, FirstPc, AfterWrites, Recorded, ParseOwner;
  }

  lemma ForeignWrite(s: State, u: string, name: string, owner: Owner)
    requires Inv(s) && Enabled(s, NodeWrite(u)) && Nameable(owner)
    requires name in s.nodes && s.nodes[name].node.owner == Some(OwnerId(owner)) && !TouchedBy(s, NodeWrite(u), name, owner)
    ensures name in Apply(s, NodeWrite(u)).nodes && Apply(s, NodeWrite(u)).nodes[name] == s.nodes[name]
  {
    assert WorkerOk(s, u);
    if s.workers[u].pc.name == name {
      OwnerIdInjective(s.workers[u].id, owner);
    }
  }

  lemma ForeignClear(s: State, u: string, n: string, name: string, owner: Owner)
    requires Inv(s) && Enabled(s, ClearWrite(u, n)) && Nameable(owner)
    requires name in s.nodes && s.nodes[name].node.owner == Some(OwnerId(owner)) && !TouchedBy(s, ClearWrite(u, n), name, owner)
    ensures name in Apply(s, ClearWrite(u, n)).nodes && Apply(s, ClearWrite(u, n)).nodes[name] == s.nodes[name]
  {
    assert WorkerOk(s, u);
    if n == name {
      OwnerIdInjective(s.workers[u].id, owner);
    }
  }

  lemma ForeignReap(s: State, r: Reap, name: string, owner: Owner)
    requires Inv(s) && Enabled(s, ReapWrite(r)) && Nameable(owner)
    requires name in s.nodes && s.nodes[name].node.owner == Some(OwnerId(owner)) && !TouchedBy(s, ReapWrite(r), name, owner)
    ensures name in Apply(s, ReapWrite(r)).nodes && Apply(s, ReapWrite(r)).nodes[name] == s.nodes[name]
  {
    assert ReapOk(s, r);
    if r.name == name {
      ParseOwnerExact(OwnerId(owner), owner);
    }
  }

  /** Out of burn-in's hands, and as schedulable as burn-in found it. */
  predicate AsFound(s: State, name: string) {
    && name in s.nodes && name in s.base
    && s.nodes[name].node.owner.None? && s.nodes[name].node.unschedulable == s.base[name]
  }

  /**
    The reaper's write lands only on a node that still carries the stamp it read,
    and only when no run exists under the stamped UID, however old its read was.
  */
  lemma ReaperSparesTheLiving(s: State, r: Reap)
    requires Reachable(s) && Enabled(s, ReapWrite(r))
    ensures s.nodes[r.name].node.owner == Some(OwnerId(r.owner))
    ensures r.owner.uid !in s.runs
    ensures AsFound(Apply(s, ReapWrite(r)), r.name)
  {
    ReachableInv(s);
    assert ReapOk(s, r) && NodeOk(s, r.name);
    ParseOwnerExact(Value(r.read.node.owner), r.owner);
  }

  lemma ThreeSteps(s: State, a: Action, b: Action, c: Action)
    requires Enabled(s, a) && Enabled(Apply(s, a), b) && Enabled(Apply(Apply(s, a), b), c)
    ensures Possible(s, [a, b, c]) && After(s, [a, b, c]) == Apply(Apply(Apply(s, a), b), c)
  {
    hide Enabled, Apply;
    var s1 := Apply(s, a);
    var s2 := Apply(s1, b);
    assert [a, b, c][1..] == [b, c] && [b, c][1..] == [c] && [c][1..] == [];
    var s3 := Apply(s2, c);
    assert Possible(s3, []) && After(s3, []) == s3;
    assert Possible(s2, [c]) && After(s2, [c]) == s3;
    assert Possible(s1, [b, c]) && After(s1, [b, c]) == After(s2, [c]);
  }

  /** One undisturbed reaper pass over a node whose owner is gone. */
  lemma ReaperPass(s: State, name: string, owner: Owner)
    requires name in s.nodes && !Alive(s, owner)
    requires s.nodes[name].node.owner.Some? && ParseOwner(s.nodes[name].node.owner.value) == Some(owner)
    ensures var r := Reap(name, s.nodes[name], owner, false);
            var r' := r.(absent := true);
            && Enabled(s, ReapRead(name)) && Enabled(Apply(s, ReapRead(name)), ReapCheck(r))
            && Enabled(Apply(Apply(s, ReapRead(name)), ReapCheck(r)), ReapWrite(r'))
            && var t := Apply(Apply(Apply(s, ReapRead(name)), ReapCheck(r)), ReapWrite(r'));
               t.base == s.base && t.nodes == s.nodes[name := VNode(s.clock, Reaped(s.nodes[name].node, owner))]
  {
    var r := Reap(name, s.nodes[name], owner, false);
    var s1 := s.(reapers := s.reapers + {r});
    var s2 := s1.(reapers := s1.reapers - {r} + {r.(absent := true)});
    assert Apply(s, ReapRead(name)) == s1;
    assert Alive(s1, owner) == Alive(s, owner);
    assert Apply(s1, ReapCheck(r)) == s2;
  }

  /** An orphaned stamp is never stuck: the reaper's next pass can clear it, and does so correctly. */
  lemma OrphansAreRecovered(s: State, name: string, owner: Owner)
    requires Reachable(s) && name in s.nodes && Nameable(owner)
    requires s.nodes[name].node.owner == Some(OwnerId(owner)) && owner.uid !in s.runs
    ensures var r := Reap(name, s.nodes[name], owner, false);
            var pass := [ReapRead(name), ReapCheck(r), ReapWrite(r.(absent := true))];
            Possible(s, pass) && AsFound(After(s, pass), name)
  {
    hide Enabled, Apply;
    ReachableInv(s);
    assert NodeOk(s, name);
    ParseOwnerExact(OwnerId(owner), owner);
    assert !Alive(s, owner);
    ReaperPass(s, name, owner);
    var r := Reap(name, s.nodes[name], owner, false);
    ThreeSteps(s, ReapRead(name), ReapCheck(r), ReapWrite(r.(absent := true)));
  }
}
