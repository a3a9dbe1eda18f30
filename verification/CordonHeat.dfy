/**
  The heat declaration over the protocol: it is on a node together with its run's stamp or
  not at all, so no node goes back to the scheduler with its thermal watchdog told to ignore it.
*/
module CordonHeat {
  import opened Base
  import opened Stamps
  import opened Cordon
  import opened CordonProtocol

  /** A declaration of a run of this history stands only beside that run's stamp. */
  predicate Tied(node: Node, foreign: set<string>) {
    HeatOf(node).Some? && HeatOf(node).value.owner.uid !in foreign ==>
      var o := ParseOwner(Value(node.owner)); o.Some? && o.value.uid == HeatOf(node).value.owner.uid
  }

  ghost predicate PcTied(pc: Pc, foreign: set<string>) {
    match pc
    case Writing(_, _, rest) => forall i :: 0 <= i < |rest| ==> Tied(rest[i], foreign)
    case Clearing(todo) => forall n :: n in todo ==> Tied(todo[n].node, foreign)
    case _ => true
  }

  ghost predicate HeatInv(s: State) {
    && (forall n :: n in s.nodes ==> Tied(s.nodes[n].node, s.foreign))
    && (forall u :: u in s.workers ==> PcTied(s.workers[u].pc, s.foreign) && u !in s.foreign)
    && (forall r :: r in s.reapers ==> Tied(r.read.node, s.foreign))
    && s.foreign <= s.used && (forall u :: u in s.runs ==> u !in s.foreign)
  }

  /** Declarations found on nodes name UIDs that are not issued again. */
  ghost predicate HeatFound(s: State) {
    forall n :: n in s.nodes && HeatOf(s.nodes[n].node).Some? ==> HeatOf(s.nodes[n].node).value.owner.uid in s.used
  }

  // ---------------------------------------------------------------- the writes

  lemma WithHeatTied(node: Node, run: Owner, heat: Heat, foreign: set<string>)
    requires Nameable(run) && Owns(run, node) && (heat.Declare? ==> Writable(heat.expiry))
    requires HeatOf(node).Some? && HeatOf(node).value.owner.uid !in foreign ==> HeatOf(node).value.owner.uid == run.uid
    ensures Tied(WithHeat(node, run, heat), foreign)
  {
    ParseOwnerExact(OwnerId(run), run);
    match heat
    case Declare(expiry) =>
      HeatIsOwnedAndMovesForward(node, run, expiry);
      ParseHeatExact(HeatId(Marker(run, expiry)), Marker(run, expiry));
    case Withdraw =>
  }

  /** An expiry no annotation can spell is declared for nobody. */
  lemma UnwritableTied(node: Node, run: Owner, expiry: Instant, foreign: set<string>)
    requires Nameable(run) && Owns(run, node) && !Writable(expiry)
    requires HeatOf(node).Some? && HeatOf(node).value.owner.uid !in foreign ==> HeatOf(node).value.owner.uid == run.uid
    ensures Tied(WithHeat(node, run, Declare(expiry)), foreign)
  {
    ParseOwnerExact(OwnerId(run), run);
    var after := StampHeat(node, run, expiry);
    if HeatOf(after).Some? && after != node {
      var m := HeatOf(after).value;
      ParseHeatExact(after.heat.value, m);
      SameOwnerPrinted(Marker(run, expiry), m);
    }
  }

  /** Whoever a printed declaration is read back as, it is the run that printed it. */
  lemma SameOwnerPrinted(a: Marker, b: Marker)
    requires Nameable(a.owner) && Nameable(b.owner) && HeatId(a) == HeatId(b)
    ensures a.owner == b.owner
  {
    HeatIdIsJoin(a);
    HeatIdIsJoin(b);
    var e, f := FormatInstant(a.expiry), FormatInstant(b.expiry);
    FormatHasNoSlash(a.expiry);
    FormatHasNoSlash(b.expiry);
    SplitJoin([a.owner.namespace, a.owner.name, a.owner.uid, e], '/');
    SplitJoin([b.owner.namespace, b.owner.name, b.owner.uid, f], '/');
    assert [a.owner.namespace, a.owner.name, a.owner.uid, e] == [b.owner.namespace, b.owner.name, b.owner.uid, f];
    assert [a.owner.namespace, a.owner.name, a.owner.uid, e][0] == a.owner.namespace;
    assert [a.owner.namespace, a.owner.name, a.owner.uid, e][1] == a.owner.name;
    assert [a.owner.namespace, a.owner.name, a.owner.uid, e][2] == a.owner.uid;
  }

  lemma CordonTied(node: Node, run: Owner, record: Record, name: string, heat: Heat, foreign: set<string>)
    requires Nameable(run) && Tied(node, foreign)
    ensures forall k :: 0 <= k < |CordonStates(node, run, record, name, heat)| ==> Tied(CordonStates(node, run, record, name, heat)[k], foreign)
  {
    if Value(node.owner) == "" || Owns(run, node) {
      var held := node.(owner := Some(OwnerId(run)), prior := if Owns(run, node) then node.prior else Some(FormatBool(PriorUnschedulable(record, name, node.unschedulable))));
      OwnerIdHasText(run);
      ParseOwnerExact(OwnerId(run), run);
      if ParseOwner("").Some? { ParseOwnerExact("", ParseOwner("").value); }
      if heat.Declare? && !Writable(heat.expiry) {
        UnwritableTied(held, run, heat.expiry, foreign);
      } else {
        WithHeatTied(held, run, heat, foreign);
      }
      hide ParseOwner, ParseHeat, StampHeat, DropHeat, FormatBool;
      forall k | 0 <= k < |CordonStates(node, run, record, name, heat)|
        ensures Tied(CordonStates(node, run, record, name, heat)[k], foreign)
      {
        SameHeat(node, run, record, name, heat, k);
      }
    }
  }

  lemma ReleaseTied(node: Node, run: Owner, record: Record, name: string, foreign: set<string>)
    requires Tied(node, foreign) && ParseOwner(Value(node.owner)) == Some(run)
    ensures Tied(Released(node, run, record, name), foreign) && Tied(Reaped(node, run), foreign)
  {
    ReleaseGivesBack(node, run, record, name);
  }

  // ---------------------------------------------------------------- every step keeps it

  /** One node replaced, and one worker's plans. */
  lemma PutTied(s: State, name: string, node: Node)
    requires HeatInv(s) && Tied(node, s.foreign)
    ensures HeatInv(Put(s, name, node))
  {
    hide Tied, PcTied;
  }

  lemma PcTiedKeeps(s: State, u: string, pc: Pc)
    requires HeatInv(s) && u in s.workers && PcTied(pc, s.foreign)
    ensures HeatInv(WithPc(s, u, pc))
  {
    hide Tied, PcTied;
  }

  lemma Named(s: State, u: string)
    requires Inv(s) && u in s.workers
    ensures Nameable(s.workers[u].id)
  {
    assert WorkerOk(s, u);
  }

  lemma ReapReads(s: State, r: Reap)
    requires Inv(s) && r in s.reapers
    ensures ParseOwner(Value(r.read.node.owner)) == Some(r.owner)
  {
    assert ReapOk(s, r);
  }

  lemma CordonReadTied(s: State, u: string, name: string, heat: Heat)
    requires Inv(s) && HeatInv(s) && Enabled(s, CordonRead(u, name, heat))
    ensures HeatInv(Apply(s, CordonRead(u, name, heat)))
  {
    hide Inv, HeatInv, CordonStates, AfterWrites;
    var w, vn := s.workers[u], s.nodes[name];
    Named(s, u);
    NodeTied(s, name);
    PlansTied(vn, w, name, heat, s.foreign);
    PcTiedKeeps(s, u, AfterWrites(name, vn.version, CordonStates(vn.node, w.id, Recorded(w.memory), name, heat)[1..]));
  }

  lemma NodeTied(s: State, name: string)
    requires HeatInv(s) && name in s.nodes
    ensures Tied(s.nodes[name].node, s.foreign)
  {
    hide Tied;
  }

  lemma PlansTied(vn: VNode, w: Worker, name: string, heat: Heat, foreign: set<string>)
    requires Nameable(w.id) && Tied(vn.node, foreign)
    ensures var states := CordonStates(vn.node, w.id, Recorded(w.memory), name, heat);
            PcTied(AfterWrites(name, vn.version, states[1..]), foreign)
  {
    hide CordonStates, Tied;
    CordonTied(vn.node, w.id, Recorded(w.memory), name, heat, foreign);
  }

  lemma ReleaseReadTied(s: State, u: string, name: string)
    requires Inv(s) && HeatInv(s) && Enabled(s, ReleaseRead(u, name))
    ensures HeatInv(Apply(s, ReleaseRead(u, name)))
  {
    var w, vn := s.workers[u], s.nodes[name];
    Named(s, u);
    hide Inv, Released, Tied;
    OwnStampIsRead(w.id, vn.node);
    ReleaseTied(vn.node, w.id, Recorded(w.memory), name, s.foreign);
    PcTiedKeeps(s, u, Writing(name, vn.version, [Released(vn.node, w.id, Recorded(w.memory), name)]));
  }

  lemma OwnStampIsRead(id: Owner, node: Node)
    requires Nameable(id) && Owns(id, node)
    ensures ParseOwner(Value(node.owner)) == Some(id)
  {
    ParseOwnerExact(OwnerId(id), id);
  }

  lemma NodeWriteTied(s: State, u: string)
    requires HeatInv(s) && Enabled(s, NodeWrite(u))
    ensures HeatInv(Apply(s, NodeWrite(u)))
  {
    hide Tied;
    var pc := s.workers[u].pc;
    assert PcTied(pc, s.foreign);
    PutTied(s, pc.name, pc.rest[0]);
    var next := AfterWrites(pc.name, s.clock, pc.rest[1..]);
    assert PcTied(next, s.foreign);
    hide HeatInv, PcTied;
    PcTiedKeeps(Put(s, pc.name, pc.rest[0]), u, next);
  }

  lemma ClearWriteTied(s: State, u: string, name: string)
    requires Inv(s) && HeatInv(s) && Enabled(s, ClearWrite(u, name))
    ensures HeatInv(Apply(s, ClearWrite(u, name)))
  {
    var w := s.workers[u];
    assert WorkerOk(s, u) && PcTied(w.pc, s.foreign);
    var node := w.pc.todo[name].node;
    OwnStampIsRead(w.id, node);
    ReleaseTied(node, w.id, Recorded(w.memory), name, s.foreign);
    hide Inv, WorkerOk, Released, Tied;
    PutTied(s, name, Released(node, w.id, Recorded(w.memory), name));
    assert PcTied(Clearing(w.pc.todo - {name}), s.foreign);
    hide HeatInv, PcTied;
    PcTiedKeeps(Put(s, name, Released(node, w.id, Recorded(w.memory), name)), u, Clearing(w.pc.todo - {name}));
  }

  lemma ReapWriteTied(s: State, r: Reap)
    requires Inv(s) && HeatInv(s) && Enabled(s, ReapWrite(r))
    ensures HeatInv(Apply(s, ReapWrite(r)))
  {
    hide Inv, Reaped, Tied, PcTied;
    ReapReads(s, r);
    ReleaseTied(r.read.node, r.owner, map[], r.name, s.foreign);
    var t := Put(s, r.name, Reaped(r.read.node, r.owner));
    PutTied(s, r.name, Reaped(r.read.node, r.owner));
    assert Apply(s, ReapWrite(r)) == t.(reapers := t.reapers - {r});
  }

  lemma ByHandTied(s: State, a: Action)
    requires HeatInv(s) && Enabled(s, a) && (a.NodeEdit? || a.NodeCreate?)
    ensures HeatInv(Apply(s, a))
  {
    hide Agreed, PreBurnIn, PcTied, ParseHeat, ParseOwner;
    match a
    case NodeEdit(n, b) => PutTied(s, n, s.nodes[n].node.(unschedulable := b));
    case NodeCreate(n, b) => PutTied(s, n, Node(b, None, None, None));
  }

  /** Runs come and go, and reconciles open, crash, list, and give up. */
  lemma QuietTied(s: State, a: Action)
    requires HeatInv(s) && Enabled(s, a)
    requires !a.NodeEdit? && !a.NodeCreate? && !a.CordonRead? && !a.ReleaseRead? && !a.NodeWrite? && !a.ClearWrite? && !a.ReapWrite?
    ensures HeatInv(Apply(s, a))
  {
    hide HeatInv, Enabled, Apply;
    if a.CreateRun? || a.DeleteRun? || a.Vanish? || a.ForceFinalizer? || a.NodeDelete? || a.ReapRead? || a.ReapCheck? || a.ReapDrop? {
      OutsideTied(s, a);
    } else {
      InsideTied(s, a);
    }
  }

  lemma OutsideTied(s: State, a: Action)
    requires HeatInv(s) && Enabled(s, a)
    requires a.CreateRun? || a.DeleteRun? || a.Vanish? || a.ForceFinalizer? || a.NodeDelete? || a.ReapRead? || a.ReapCheck? || a.ReapDrop?
    ensures HeatInv(Apply(s, a))
  {
    hide Tied, PcTied, ParseOwner, Alive, Nameable;
  }

  lemma InsideTied(s: State, a: Action)
    requires HeatInv(s) && Enabled(s, a)
    requires a.Begin? || a.Pin? || a.AddFinalizer? || a.Capture? || a.Mark? || a.NodeGone? || a.Terminate? || a.List? || a.ClearGone? || a.DropFinalizer? || a.Crash?
    ensures HeatInv(Apply(s, a))
  {
    hide HeatInv, Enabled, Apply;
    if a.Begin? || a.Pin? || a.AddFinalizer? || a.Capture? || a.Mark? { OpeningTied(s, a); } else { ClosingTied(s, a); }
  }

  lemma OpeningTied(s: State, a: Action)
    requires HeatInv(s) && Enabled(s, a) && (a.Begin? || a.Pin? || a.AddFinalizer? || a.Capture? || a.Mark?)
    ensures HeatInv(Apply(s, a))
  {
    hide Tied, PreBurnIn, Recorded, Owns;
  }

  lemma ClosingTied(s: State, a: Action)
    requires HeatInv(s) && Enabled(s, a) && (a.NodeGone? || a.Terminate? || a.List? || a.ClearGone? || a.DropFinalizer? || a.Crash?)
    ensures HeatInv(Apply(s, a))
  {
    hide Tied, PcTied, PreBurnIn, Recorded, Owns, HeatInv;
    match a
    case NodeGone(u) =>
      assert PcTied(Stepping, s.foreign) by { QuietPc(s.foreign); }
      PcTiedKeeps(s, u, Stepping);
    case Terminate(u) =>
      assert PcTied(Listing, s.foreign) by { QuietPc(s.foreign); }
      var r := s.runs[u].(life := Done);
      RunTied(s, u, r);
      PcTiedKeeps(WithRun(s, u, r), u, Listing);
    case List(u) =>
      ListedTied(s, s.workers[u].id);
      PcTiedKeeps(s, u, Clearing(OwnNodes(s, s.workers[u].id)));
    case ClearGone(u, n) =>
      LessTied(s, u, n);
      PcTiedKeeps(s, u, Clearing(s.workers[u].pc.todo - {n}));
    case DropFinalizer(u) =>
      var r := s.runs[u].(finalizer := false);
      RunTied(s, u, r);
      WorkerGoneTied(WithRun(s, u, r), u);
    case Crash(u) => WorkerGoneTied(s, u);
  }

  lemma QuietPc(foreign: set<string>)
    ensures PcTied(Stepping, foreign) && PcTied(Listing, foreign)
  {
  }

  lemma RunTied(s: State, u: string, r: RunObj)
    requires HeatInv(s) && u in s.runs
    ensures HeatInv(WithRun(s, u, r))
  {
    hide Tied, PcTied;
  }

  lemma WorkerGoneTied(s: State, u: string)
    requires HeatInv(s)
    ensures HeatInv(s.(workers := s.workers - {u}))
  {
    hide Tied, PcTied;
  }

  lemma ListedTied(s: State, id: Owner)
    requires HeatInv(s)
    ensures PcTied(Clearing(OwnNodes(s, id)), s.foreign)
  {
    hide Tied, Owns;
  }

  lemma LessTied(s: State, u: string, n: string)
    requires HeatInv(s) && u in s.workers && s.workers[u].pc.Clearing?
    ensures PcTied(Clearing(s.workers[u].pc.todo - {n}), s.foreign)
  {
    hide Tied;
    assert PcTied(s.workers[u].pc, s.foreign);
  }

  lemma StepTied(s: State, a: Action)
    requires Inv(s) && HeatInv(s) && Enabled(s, a)
    ensures HeatInv(Apply(s, a))
  {
    hide Inv, HeatInv, Enabled, Apply;
    match a
    case CordonRead(u, n, heat) => CordonReadTied(s, u, n, heat);
    case ReleaseRead(u, n) => ReleaseReadTied(s, u, n);
    case NodeWrite(u) => NodeWriteTied(s, u);
    case ClearWrite(u, n) => ClearWriteTied(s, u, n);
    case ReapWrite(r) => ReapWriteTied(s, r);
    case NodeEdit(_, _) => ByHandTied(s, a);
    case NodeCreate(_, _) => ByHandTied(s, a);
    case _ => QuietTied(s, a);
  }

  lemma {:induction false} TraceTied(s: State, trace: seq<Action>)
    requires Inv(s) && HeatInv(s) && Possible(s, trace)
    ensures HeatInv(After(s, trace)) && After(s, trace).foreign == s.foreign
    decreases |trace|
  {
    if trace != [] {
      hide Inv, HeatInv, Enabled, Apply;
      CordonProtocol.StepKeeps(s, trace[0]);
      StepTied(s, trace[0]);
      ForeignStays(s, trace[0]);
      TraceTied(Apply(s, trace[0]), trace[1..]);
    }
  }

  lemma ForeignStays(s: State, a: Action)
    requires Enabled(s, a)
    ensures Apply(s, a).foreign == s.foreign
  {
    hide Enabled, CordonStates, Released, Reaped, PreBurnIn, OwnNodes, FirstPc, AfterWrites, Recorded, ParseOwner;
  }

  /**
    Together or not at all. Over every history, overlaps, crashes, forced deletions and reaps
    included, a heat declaration of a run of that history is on a node only beside that run's
    own stamp: no node is back with the scheduler, or under another run, with it still on.
  */
  lemma HeatStandsBesideItsStamp(s0: State, trace: seq<Action>, name: string)
    requires Init(s0) && HeatFound(s0) && Possible(s0, trace) && name in After(s0, trace).nodes
    ensures var node := After(s0, trace).nodes[name].node;
            HeatOf(node).Some? && HeatOf(node).value.owner.uid !in s0.used ==>
              node.owner.Some? && exists o: Owner :: node.owner.value == OwnerId(o) && o.uid == HeatOf(node).value.owner.uid
  {
    InitInv(s0);
    assert HeatInv(s0);
    TraceTied(s0, trace);
    var node := After(s0, trace).nodes[name].node;
    hide After, Possible, Inv, ParseHeat;
    assert Tied(node, s0.foreign);
    if HeatOf(node).Some? && HeatOf(node).value.owner.uid !in s0.used {
      var o := ParseOwner(Value(node.owner)).value;
      ParseOwnerExact(Value(node.owner), o);
      OwnerIdHasText(o);
    }
  }

  /**
    Whoever gives a stamped node back, the run or the reaper for a run that is gone, even one
    burn-in found there, takes the owner's declaration off in the same write.
  */
  lemma GivingBackTakesTheHeat(s0: State, trace: seq<Action>, a: Action, name: string, owner: Owner)
    requires Init(s0) && HeatFound(s0) && Possible(s0, trace) && Enabled(After(s0, trace), a) && Nameable(owner)
    requires var s := After(s0, trace); name in s.nodes && s.nodes[name].node.owner == Some(OwnerId(owner))
    requires var t := Apply(After(s0, trace), a); name in t.nodes && t.nodes[name].node.owner.None?
    ensures !Declares(Apply(After(s0, trace), a).nodes[name].node, owner.uid)
  {
    var s := After(s0, trace);
    InitInv(s0);
    assert HeatInv(s0);
    hide HeatInv, HeatFound, Inv, Enabled, Apply, TouchedBy, ParseHeat, ParseOwner;
    TraceTied(s0, trace);
    TraceKeeps(s0, trace);
    assert Reachable(s);
    hide Reachable, After, Possible;
    StepTied(s, a);
    ForeignStays(s, a);
    if owner.uid !in s.foreign {
      UnstampedUndeclared(Apply(s, a), name, owner.uid);
    } else if !TouchedBy(s, a, name, owner) {
      StampStays(s, a, name, owner);
    } else {
      ForeignGivenBack(s, a, name, owner);
    }
  }

  lemma UnstampedUndeclared(s: State, name: string, uid: string)
    requires HeatInv(s) && name in s.nodes && s.nodes[name].node.owner.None? && uid !in s.foreign
    ensures !Declares(s.nodes[name].node, uid)
  {
    assert Tied(s.nodes[name].node, s.foreign);
    if ParseOwner("").Some? { ParseOwnerExact("", ParseOwner("").value); OwnerIdHasText(ParseOwner("").value); }
  }

  lemma ForeignGivenBack(s: State, a: Action, name: string, owner: Owner)
    requires Inv(s) && HeatInv(s) && Enabled(s, a) && TouchedBy(s, a, name, owner) && owner.uid in s.foreign
    requires name in Apply(s, a).nodes
    ensures !Declares(Apply(s, a).nodes[name].node, owner.uid)
  {
    if a.ReapWrite? {
      ReleaseGivesBack(a.reap.read.node, owner, map[], name);
    }
    hide Tied, PcTied, Inv, CordonStates, Released, Reaped, Agreed;
  }
}
