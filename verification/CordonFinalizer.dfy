/**
  Debts: every stamp a run leaves on a node is owed by that run for as long as its
  finalizer is on, provided only that nobody takes the finalizer off by hand.
*/
module CordonFinalizer {
  import opened Base
  import opened Stamps
  import opened Cordon
  import opened CordonProtocol

  /** Stamps that name a run of this cluster, not one found when burn-in arrived. */
  ghost predicate StampedBy(s: State, name: string, u: string)
    requires name in s.nodes
  {
    var o := ParseOwner(Value(s.nodes[name].node.owner));
    o.Some? && o.value.uid == u && u !in s.foreign
  }

  ghost predicate Owed(s: State, u: string) {
    u in s.runs && s.runs[u].finalizer
  }

  ghost predicate StampsOwed(s: State) {
    forall n, u :: n in s.nodes && StampedBy(s, n, u) ==> Owed(s, u)
  }

  /** A pinned run without the finalizer is finished, or on its way out. */
  ghost predicate PinnedOk(s: State) {
    forall u :: u in s.runs ==>
      var r := s.runs[u];
      (r.pinned && !r.finalizer ==> r.life.Done? || r.deleting) && (r.life.Active? ==> r.pinned)
  }

  ghost predicate PlaceOk(s: State, u: string)
    requires u in s.workers
  {
    var w := s.workers[u];
    && u !in s.foreign
    && match w.pc
       case Starting => true
       case Capturing(_) => u in s.runs ==> s.runs[u].pinned
       case Stepping => Owed(s, u)
       case Writing(_, _, _) => Owed(s, u)
       case Listing => u in s.runs ==> s.runs[u].life.Done? || s.runs[u].deleting
       case Clearing(todo) =>
         && (u in s.runs ==> s.runs[u].life.Done? || s.runs[u].deleting)
         && forall n :: n in s.nodes && StampedBy(s, n, u) ==> n in todo
  }

  ghost predicate PlacesOk(s: State) {
    forall u :: u in s.workers ==> PlaceOk(s, u)
  }

  ghost predicate Owing(s: State) {
    && Inv(s) && StampsOwed(s) && PinnedOk(s) && PlacesOk(s)
    && s.foreign <= s.used && (forall u :: u in s.runs ==> u !in s.foreign)
  }

  lemma InitOwing(s: State)
    requires Init(s)
    ensures Owing(s)
  {
    InitInv(s);
  }

  /** What a worker writes onto a node is its own stamp, or none. */
  lemma WrittenStamp(s: State, u: string)
    requires Inv(s) && Enabled(s, NodeWrite(u))
    ensures var o := ParseOwner(Value(s.workers[u].pc.rest[0].owner)); o.Some? ==> o.value.uid == u
  {
    var w := s.workers[u];
    assert WorkerOk(s, u) && WriteOk(s, w.id, w.pc.name, w.pc.rest[0]);
    OwnStampReads(s, w.id, w.pc.rest[0]);
  }

  lemma NodeWriteOwing(s: State, u: string)
    requires Owing(s) && Enabled(s, NodeWrite(u))
    ensures Owing(Apply(s, NodeWrite(u)))
  {
    hide Inv, ParseOwner;
    StepKeeps(s, NodeWrite(u));
    WrittenStamp(s, u);
    var t := Apply(s, NodeWrite(u));
    var pc := s.workers[u].pc;
    assert PlaceOk(s, u);
    forall n, v | n in t.nodes && StampedBy(t, n, v) ensures Owed(t, v) {
      if n != pc.name { assert StampedBy(s, n, v); }
    }
    forall v | v in t.workers ensures PlaceOk(t, v) {
      assert PlaceOk(s, v);
      if v != u && t.workers[v].pc.Clearing? {
        forall n | n in t.nodes && StampedBy(t, n, v) ensures n in t.workers[v].pc.todo {
          assert StampedBy(s, n, v);
        }
      }
    }
  }

  lemma ClearWriteOwing(s: State, u: string, name: string)
    requires Owing(s) && Enabled(s, ClearWrite(u, name))
    ensures Owing(Apply(s, ClearWrite(u, name)))
  {
    hide Inv;
    StepKeeps(s, ClearWrite(u, name));
    var t := Apply(s, ClearWrite(u, name));
    SplitSingle("", '/');
    forall n, v | n in t.nodes && StampedBy(t, n, v) ensures n != name && StampedBy(s, n, v) && Owed(t, v) { assert StampedBy(s, n, v); }
    forall v | v in t.workers ensures PlaceOk(t, v) { assert PlaceOk(s, v); }
  }

  lemma ReapWriteOwing(s: State, r: Reap)
    requires Owing(s) && Enabled(s, ReapWrite(r))
    ensures Owing(Apply(s, ReapWrite(r)))
  {
    hide Inv;
    StepKeeps(s, ReapWrite(r));
    var t := Apply(s, ReapWrite(r));
    SplitSingle("", '/');
    forall n, v | n in t.nodes && StampedBy(t, n, v) ensures n != r.name && StampedBy(s, n, v) && Owed(t, v) { assert StampedBy(s, n, v); }
    forall v | v in t.workers ensures PlaceOk(t, v) { assert PlaceOk(s, v); }
  }

  lemma EnvironmentOwing(s: State, a: Action)
    requires Owing(s) && Enabled(s, a) && (a.NodeEdit? || a.NodeCreate? || a.NodeDelete?)
    ensures Owing(Apply(s, a))
  {
    hide Inv;
    StepKeeps(s, a);
    var t := Apply(s, a);
    SplitSingle("", '/');
    forall n, v | n in t.nodes && StampedBy(t, n, v) ensures n in s.nodes && StampedBy(s, n, v) && Owed(t, v) { assert StampedBy(s, n, v); }
    forall v | v in t.workers ensures PlaceOk(t, v) { assert PlaceOk(s, v); }
  }

  lemma ListOwing(s: State, u: string)
    requires Owing(s) && Enabled(s, List(u))
    ensures Owing(Apply(s, List(u)))
  {
    StepKeeps(s, List(u));
    var t := Apply(s, List(u));
    assert WorkerOk(s, u) && PlaceOk(s, u);
    var id := s.workers[u].id;
    forall n, v | n in t.nodes && StampedBy(t, n, v) ensures StampedBy(s, n, v) && Owed(t, v) { assert StampedBy(s, n, v); }
    forall n | n in t.nodes && StampedBy(t, n, u) ensures n in t.workers[u].pc.todo {
      assert StampedBy(s, n, u) && NodeOk(s, n);
      var o := ParseOwner(Value(s.nodes[n].node.owner)).value;
      ParseOwnerExact(Value(s.nodes[n].node.owner), o);
    }
    forall v | v in t.workers ensures PlaceOk(t, v) { assert PlaceOk(s, v); }
  }

  /** Nodes, runs and finalizers where they were, and every worker accounted for. */
  lemma QuietOwing(s: State, t: State)
    requires Owing(s) && Inv(t) && t.nodes == s.nodes && t.runs == s.runs && t.foreign == s.foreign && t.used == s.used
    requires forall v :: v in t.workers ==> PlaceOk(t, v)
    ensures Owing(t)
  {
    hide Inv;
    forall n, v | n in t.nodes && StampedBy(t, n, v) ensures Owed(t, v) { assert StampedBy(s, n, v); }
  }

  lemma ReadOwing(s: State, a: Action)
    requires Owing(s) && Enabled(s, a) && (a.Begin? || a.Capture? || a.CordonRead? || a.ReleaseRead?)
    ensures Owing(Apply(s, a))
  {
    hide Inv;
    StepKeeps(s, a);
    var t := Apply(s, a);
    forall v | v in t.workers ensures PlaceOk(t, v) {
      if v in s.workers { assert PlaceOk(s, v); }
    }
    QuietOwing(s, t);
  }

  lemma GiveUpOwing(s: State, a: Action)
    requires Owing(s) && Enabled(s, a) && (a.NodeGone? || a.ClearGone? || a.Crash?)
    ensures Owing(Apply(s, a))
  {
    hide Inv;
    StepKeeps(s, a);
    var t := Apply(s, a);
    forall v | v in t.workers ensures PlaceOk(t, v) { assert PlaceOk(s, v); }
    QuietOwing(s, t);
  }

  lemma ReapReadOwing(s: State, a: Action)
    requires Owing(s) && Enabled(s, a) && (a.ReapRead? || a.ReapCheck? || a.ReapDrop?)
    ensures Owing(Apply(s, a))
  {
    hide Inv;
    StepKeeps(s, a);
    var t := Apply(s, a);
    forall v | v in t.workers ensures PlaceOk(t, v) { assert PlaceOk(s, v); }
    QuietOwing(s, t);
  }

  lemma RunWriteOwing(s: State, a: Action)
    requires Owing(s) && Enabled(s, a) && (a.AddFinalizer? || a.DeleteRun? || a.Terminate?)
    ensures Owing(Apply(s, a))
  {
    hide Inv;
    StepKeeps(s, a);
    var t := Apply(s, a);
    if a.uid in s.workers { assert PlaceOk(s, a.uid); }
    forall n, v | n in t.nodes && StampedBy(t, n, v) ensures StampedBy(s, n, v) && Owed(t, v) { assert StampedBy(s, n, v); }
    forall v | v in t.workers ensures PlaceOk(t, v) { assert PlaceOk(s, v); }
  }

  lemma PinOwing(s: State, u: string)
    requires Owing(s) && Enabled(s, Pin(u))
    ensures Owing(Apply(s, Pin(u)))
  {
    assert WorkerOk(s, u);
    hide Inv, WorkerOk, ParseOwner;
    StepKeeps(s, Pin(u));
    var t := Apply(s, Pin(u));
    assert PlaceOk(s, u);
    forall n, v | n in t.nodes && StampedBy(t, n, v) ensures Owed(t, v) { assert StampedBy(s, n, v); }
    forall v | v in t.workers ensures PlaceOk(t, v) { assert PlaceOk(s, v); }
  }

  lemma MarkOwing(s: State, u: string)
    requires Owing(s) && Enabled(s, Mark(u))
    ensures Owing(Apply(s, Mark(u)))
  {
    assert WorkerOk(s, u);
    hide Inv, WorkerOk, ParseOwner;
    StepKeeps(s, Mark(u));
    var t := Apply(s, Mark(u));
    assert PlaceOk(s, u);
    forall n, v | n in t.nodes && StampedBy(t, n, v) ensures Owed(t, v) { assert StampedBy(s, n, v); }
    forall v | v in t.workers ensures PlaceOk(t, v) { assert PlaceOk(s, v); }
  }

  /** The finalizer comes off only a run whose last stamp is gone. */
  lemma DropFinalizerOwing(s: State, u: string)
    requires Owing(s) && Enabled(s, DropFinalizer(u))
    ensures Owing(Apply(s, DropFinalizer(u)))
  {
    hide Inv;
    StepKeeps(s, DropFinalizer(u));
    var t := Apply(s, DropFinalizer(u));
    assert PlaceOk(s, u);
    forall n, v | n in t.nodes && StampedBy(t, n, v) ensures v != u && StampedBy(s, n, v) && Owed(t, v) { assert StampedBy(s, n, v); }
    forall v | v in t.workers ensures PlaceOk(t, v) { assert PlaceOk(s, v); }
  }

  lemma VanishOwing(s: State, u: string)
    requires Owing(s) && Enabled(s, Vanish(u))
    ensures Owing(Apply(s, Vanish(u)))
  {
    hide Inv;
    StepKeeps(s, Vanish(u));
    var t := Apply(s, Vanish(u));
    forall n, v | n in t.nodes && StampedBy(t, n, v) ensures StampedBy(s, n, v) && Owed(t, v) { assert StampedBy(s, n, v); }
    forall v | v in t.workers ensures PlaceOk(t, v) { assert PlaceOk(s, v); }
  }

  lemma CreateOwing(s: State, id: Owner)
    requires Owing(s) && Enabled(s, CreateRun(id))
    ensures Owing(Apply(s, CreateRun(id)))
  {
    StepKeeps(s, CreateRun(id));
    var t := Apply(s, CreateRun(id));
    forall n, v | n in t.nodes && StampedBy(t, n, v) ensures StampedBy(s, n, v) && Owed(t, v) {
      assert NodeOk(s, n) && StampedBy(s, n, v);
    }
    forall v | v in t.workers ensures PlaceOk(t, v) { assert PlaceOk(s, v) && WorkerOk(s, v); }
  }

  lemma StepOwing(s: State, a: Action)
    requires Owing(s) && Enabled(s, a) && !a.ForceFinalizer?
    ensures Owing(Apply(s, a))
  {
    hide Apply, Enabled, Owing;
    match a
    case CreateRun(id) => CreateOwing(s, id);
    case Vanish(u) => VanishOwing(s, u);
    case NodeWrite(u) => NodeWriteOwing(s, u);
    case List(u) => ListOwing(s, u);
    case ClearWrite(u, n) => ClearWriteOwing(s, u, n);
    case DropFinalizer(u) => DropFinalizerOwing(s, u);
    case ReapWrite(r) => ReapWriteOwing(s, r);
    case NodeEdit(_, _) => EnvironmentOwing(s, a);
    case NodeCreate(_, _) => EnvironmentOwing(s, a);
    case NodeDelete(_) => EnvironmentOwing(s, a);
    case Pin(u) => PinOwing(s, u);
    case AddFinalizer(_) => RunWriteOwing(s, a);
    case Mark(u) => MarkOwing(s, u);
    case Terminate(_) => RunWriteOwing(s, a);
    case DeleteRun(_) => RunWriteOwing(s, a);
    case NodeGone(_) => GiveUpOwing(s, a);
    case ClearGone(_, _) => GiveUpOwing(s, a);
    case Crash(_) => GiveUpOwing(s, a);
    case ReapRead(_) => ReapReadOwing(s, a);
    case ReapCheck(_) => ReapReadOwing(s, a);
    case ReapDrop(_) => ReapReadOwing(s, a);
    case _ => ReadOwing(s, a);
  }

  ghost predicate Unforced(trace: seq<Action>) {
    forall i :: 0 <= i < |trace| ==> !trace[i].ForceFinalizer?
  }

  lemma {:induction false} TraceOwing(s: State, trace: seq<Action>)
    requires Owing(s) && Possible(s, trace) && Unforced(trace)
    ensures Owing(After(s, trace))
    decreases |trace|
  {
    if trace != [] {
      StepOwing(s, trace[0]);
      TraceOwing(Apply(s, trace[0]), trace[1..]);
    }
  }

  /**
    Over every trace in which nobody strips a finalizer by hand: a stamp of a run
    of this cluster implies that the run still exists and still has its finalizer.
    So a run that has lost its finalizer, or is gone, owns no node anywhere.
  */
  lemma FinalizerOwesEveryStamp(s0: State, trace: seq<Action>, name: string, owner: Owner)
    requires Init(s0) && Possible(s0, trace) && Unforced(trace)
    requires Nameable(owner) && owner.uid !in s0.foreign
    requires var s := After(s0, trace); name in s.nodes && s.nodes[name].node.owner == Some(OwnerId(owner))
    ensures var s := After(s0, trace); owner.uid in s.runs && s.runs[owner.uid].finalizer && s.runs[owner.uid].id == owner
  {
    InitOwing(s0);
    TraceOwing(s0, trace);
    ForeignIsFixed(s0, trace);
    var s := After(s0, trace);
    ParseOwnerExact(OwnerId(owner), owner);
    assert StampedBy(s, name, owner.uid) && NodeOk(s, name);
  }

  lemma {:induction false} ForeignIsFixed(s: State, trace: seq<Action>)
    requires Possible(s, trace)
    ensures After(s, trace).foreign == s.foreign
    decreases |trace|
  {
    if trace != [] {
      ForeignIsFixed(Apply(s, trace[0]), trace[1..]);
    }
  }
}
