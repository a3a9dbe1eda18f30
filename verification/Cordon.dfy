/**
  Holding a node out of the scheduler and giving it back.

  Every value a node passes through is a pure function of the node as read, the
  run and its start-time record. The classes below are the same operations as the
  reconciler performs them: in place, one API write at a time, and possibly cut
  off by a crash or a refused write after any of them.
*/
module Cordon {
  import opened Base
  import opened Stamps

  const PRIOR_TRUE: string := "true"
  const PRIOR_FALSE: string := "false"

  /** What burn-in reads and writes on a Node object. */
  datatype Node = Node(
    unschedulable: bool,
    owner: Option<string>,   // the ownership stamp
    prior: Option<string>,   // schedulability as found, recorded beside the stamp
    heat: Option<string>     // the heat declaration
  )

  /** A run's start-time record of how it found its targets. */
  type Record = map<string, bool>

  /** Whether the next pod holds the part under load, and until when. */
  datatype Heat = Declare(expiry: Instant) | Withdraw

  function FormatBool(b: bool): string {
    if b then PRIOR_TRUE else PRIOR_FALSE
  }

  /** The annotation value as a map read gives it: empty when missing. */
  function Value(a: Option<string>): string {
    if a.Some? then a.value else ""
  }

  predicate Owns(run: Owner, node: Node) {
    Value(node.owner) == OwnerId(run)
  }

  // ---------------------------------------------------------------- prior state

  /** What the node was before any burn-in touched it. */
  predicate PreBurnIn(node: Node) {
    if node.owner.Some? then node.prior == Some(PRIOR_TRUE) else node.unschedulable
  }

  /** What a run must restore a node to: its own record, or what it observed. */
  predicate PriorUnschedulable(record: Record, name: string, observed: bool) {
    if name in record then record[name] else observed
  }

  predicate RestoredUnschedulable(record: Record, name: string, node: Node) {
    PriorUnschedulable(record, name, node.prior == Some(PRIOR_TRUE))
  }

  /** The record says about this node what the node says about itself. */
  predicate Agrees(record: Record, name: string, node: Node) {
    name in record ==> record[name] == PreBurnIn(node)
  }

  // ---------------------------------------------------------------- heat

  function StampHeat(node: Node, run: Owner, expiry: Instant): (r: Node)
  {
    var raw := Value(node.heat);
    var existing := ParseHeat(raw);
    if raw != "" && (existing.None? || existing.value.owner.uid != run.uid || !Before(existing.value.expiry, expiry))
    then node
    else node.(heat := Some(HeatId(Marker(run, expiry))))
  }

  function DropHeat(node: Node, uid: string): (r: Node)
  {
    if node.heat.None? then node
    else
      var marker := ParseHeat(node.heat.value);
      if marker.None? || marker.value.owner.uid != uid then node else node.(heat := None)
  }

  function WithHeat(node: Node, run: Owner, heat: Heat): (r: Node)
    ensures r == node.(heat := r.heat)
  {
    match heat
    case Declare(expiry) => StampHeat(node, run, expiry)
    case Withdraw => DropHeat(node, run.uid)
  }

  /** Whose declaration a node carries, if any this operator can read. */
  function HeatOf(node: Node): Option<Marker> {
    if node.heat.None? then None else ParseHeat(node.heat.value)
  }

  /**
    Neither operation touches a declaration that is not provably this run's, a
    stamp never shortens one in force, and it leaves this run covered to at least
    the requested expiry unless the annotation belongs to somebody else.
  */
  lemma HeatIsOwnedAndMovesForward(node: Node, run: Owner, expiry: Instant)
    requires Nameable(run) && Writable(expiry)
    ensures var after := StampHeat(node, run, expiry);
            var mine := Value(node.heat) == "" || (HeatOf(node).Some? && HeatOf(node).value.owner.uid == run.uid);
            && (!mine ==> after == node && DropHeat(node, run.uid) == node)
            && (mine ==> HeatOf(after).Some? && HeatOf(after).value.owner.uid == run.uid
                         && !Before(HeatOf(after).value.expiry, expiry)
                         && (HeatOf(node).Some? ==> !Before(HeatOf(after).value.expiry, HeatOf(node).value.expiry)))
            && (mine && HeatOf(node).Some? ==> DropHeat(node, run.uid).heat == None)
  {
    ParseHeatExact(HeatId(Marker(run, expiry)), Marker(run, expiry));
    assert ParseHeat("").None? by {
      SplitSingle("", '/');
    }
  }

  // ---------------------------------------------------------------- cordoning

  function Reasserted(node: Node, run: Owner, heat: Heat): Node {
    WithHeat(node, run, heat).(unschedulable := true)
  }

  /** The first write of a claim: stamp, prior record and heat, schedulability untouched. */
  function Claimed(node: Node, run: Owner, record: Record, name: string, heat: Heat): Node {
    WithHeat(node.(owner := Some(OwnerId(run)),
                   prior := Some(FormatBool(PriorUnschedulable(record, name, node.unschedulable)))), run, heat)
  }

  /**
    The values cordonNode takes a node through, from the node as read. Each step
    is one API write, so a crash leaves the node at one of them.
  */
  function CordonStates(node: Node, run: Owner, record: Record, name: string, heat: Heat): (states: seq<Node>)
    ensures 1 <= |states| <= 3 && states[0] == node
  {
    if Owns(run, node) then
      var r := Reasserted(node, run, heat);
      if r == node then [node] else [node, r]
    else if Value(node.owner) != "" then [node]
    else
      var c := Claimed(node, run, record, name, heat);
      if c.unschedulable then [node, c] else [node, c, c.(unschedulable := true)]
  }

  /**
    Wherever cordoning stops, the node's pre-burn-in state is still on record, it
    was never taken out of the scheduler without the stamp that gets it back, and
    another owner's node was not touched. Run to the end, it holds the node.
  */
  lemma CordonKeepsPrior(node: Node, run: Owner, record: Record, name: string, heat: Heat, k: nat)
    requires node.owner != Some("") && Agrees(record, name, node)
    requires k < |CordonStates(node, run, record, name, heat)|
    ensures var states := CordonStates(node, run, record, name, heat);
            && PreBurnIn(states[k]) == PreBurnIn(node)
            && (states[k].unschedulable && !node.unschedulable ==> Owns(run, states[k]))
            && (node.owner.Some? && !Owns(run, node) ==> states[k] == node)
            && (node.owner.None? || Owns(run, node) ==>
                  var last := states[|states| - 1]; Owns(run, last) && last.unschedulable)
  {
  }

  /** Wherever cordoning stops, the node's pre-burn-in state is what it was. */
  predicate PriorKept(node: Node, run: Owner, record: Record, name: string, heat: Heat) {
    var states := CordonStates(node, run, record, name, heat);
    forall k :: 0 <= k < |states| ==> PreBurnIn(states[k]) == PreBurnIn(node)
  }

  /**
    The exact condition, for every node: cordoning keeps the pre-burn-in state if and only if
    it does not claim the node, because it is this run's already or somebody else's, or what
    the run would write down as the prior state is what the node reads as now.
  */
  lemma PriorKeptExactly(node: Node, run: Owner, record: Record, name: string, heat: Heat)
    requires Nameable(run)
    ensures PriorKept(node, run, record, name, heat) <==>
      Value(node.owner) != "" || PriorUnschedulable(record, name, node.unschedulable) == PreBurnIn(node)
  {
    var states := CordonStates(node, run, record, name, heat);
    if Value(node.owner) == "" {
      var claimed := Claimed(node, run, record, name, heat);
      assert states[1] == claimed;
      assert PreBurnIn(claimed) == PriorUnschedulable(record, name, node.unschedulable);
    }
  }

  /**
    A node carrying an EMPTY stamp reads as unowned to cordonNode and as stamped to the
    prior-state reader. Claiming it keeps its prior state if and only if the run's own record
    of it, or its schedulability where there is none, agrees with its prior annotation.
  */
  lemma EmptyStampKeepsPriorExactly(node: Node, run: Owner, record: Record, name: string, heat: Heat)
    requires Nameable(run) && node.owner == Some("")
    ensures PriorKept(node, run, record, name, heat) <==>
      PriorUnschedulable(record, name, node.unschedulable) == (node.prior == Some(PRIOR_TRUE))
  {
    PriorKeptExactly(node, run, record, name, heat);
  }

  /** So a cordoned node with an empty stamp, no prior annotation and no record loses its prior state. */
  lemma EmptyStampLosesPrior(run: Owner, name: string, heat: Heat)
    requires Nameable(run)
    ensures !PriorKept(Node(true, Some(""), None, None), run, map[], name, heat)
  {
    EmptyStampKeepsPriorExactly(Node(true, Some(""), None, None), run, map[], name, heat);
  }

  // ---------------------------------------------------------------- releasing

  /** One write: restored schedulability, and the annotations gone with it. */
  function Released(node: Node, run: Owner, record: Record, name: string): Node {
    DropHeat(node.(unschedulable := RestoredUnschedulable(record, name, node), owner := None, prior := None), run.uid)
  }

  /** The reaper's write, on behalf of a run that is gone: the stamp's own record decides. */
  function Reaped(node: Node, owner: Owner): Node {
    DropHeat(node.(unschedulable := node.prior == Some(PRIOR_TRUE), owner := None, prior := None), owner.uid)
  }

  /** A release puts the node back exactly as it was found, and the reaper does what the run would have done. */
  lemma ReleaseRestores(node: Node, run: Owner, record: Record, name: string)
    requires Owns(run, node) && Agrees(record, name, node)
    ensures var r := Released(node, run, record, name);
            && r.owner.None? && r.prior.None?
            && r.unschedulable == PreBurnIn(node) == PreBurnIn(r)
            && r == Reaped(node, run)
  {
  }

  /** The node's declaration is this run's. */
  predicate Declares(node: Node, uid: string) {
    HeatOf(node).Some? && HeatOf(node).value.owner.uid == uid
  }

  /**
    Given back: unstamped, as schedulable as the record or else the node itself says it was
    found, and without the run's heat declaration; any other declaration is left alone.
  */
  predicate GivenBack(uid: string, record: Record, name: string, before: Node, after: Node) {
    && after.owner.None? && after.prior.None?
    && (after.unschedulable <==> if name in record then record[name] else before.prior == Some("true"))
    && after.heat == (if Declares(before, uid) then None else before.heat)
  }

  /** The run's release and the reaper's write both give the node back, heat and all. */
  lemma ReleaseGivesBack(node: Node, run: Owner, record: Record, name: string)
    ensures GivenBack(run.uid, record, name, node, Released(node, run, record, name))
    ensures GivenBack(run.uid, map[], name, node, Reaped(node, run))
    ensures !Declares(Released(node, run, record, name), run.uid) && !Declares(Reaped(node, run), run.uid)
  {
  }

  /**
    What a claim leaves on a node: this run's declaration, good until at least the expiry
    asked for, or none of this run's; somebody else's, or one nobody can read, as it was.
  */
  predicate HeatSettled(uid: string, heat: Heat, before: Node, after: Node) {
    var mine := Value(before.heat) == "" || Declares(before, uid);
    match heat
    case Declare(expiry) =>
      if mine then Declares(after, uid) && Clock(HeatOf(after).value.expiry) >= Clock(expiry) else after.heat == before.heat
    case Withdraw => after.heat == if Declares(before, uid) then None else before.heat
  }

  /** Every write of a claim carries the declaration: no node is taken out of the scheduler first and declared later. */
  lemma ClaimSettlesHeat(node: Node, run: Owner, record: Record, name: string, heat: Heat, k: nat)
    requires Nameable(run) && (heat.Declare? ==> Writable(heat.expiry))
    requires Value(node.owner) == "" || Owns(run, node)
    requires k < |CordonStates(node, run, record, name, heat)|
    ensures var states := CordonStates(node, run, record, name, heat);
            k > 0 || |states| == 1 ==> HeatSettled(run.uid, heat, node, states[k])
  {
    hide CordonStates, ParseHeat, Clock, Writable;
    SameHeat(node, run, record, name, heat, k);
    match heat
    case Declare(expiry) => StampSettles(node, run, expiry);
    case Withdraw =>
  }

  lemma StampSettles(node: Node, run: Owner, expiry: Instant)
    requires Nameable(run) && Writable(expiry)
    ensures HeatSettled(run.uid, Declare(expiry), node, StampHeat(node, run, expiry))
  {
    HeatIsOwnedAndMovesForward(node, run, expiry);
    var after := StampHeat(node, run, expiry);
    if Declares(after, run.uid) {
      ParseHeatExact(after.heat.value, HeatOf(after).value);
      BeforeIsClockOrder(HeatOf(after).value.expiry, expiry);
    }
    hide StampHeat, ParseHeat, Clock, Writable;
  }

  /** The writes of a claim differ in nothing the declaration depends on. */
  lemma SameHeat(node: Node, run: Owner, record: Record, name: string, heat: Heat, k: nat)
    requires Value(node.owner) == "" || Owns(run, node)
    requires k < |CordonStates(node, run, record, name, heat)|
    ensures var states := CordonStates(node, run, record, name, heat);
            k > 0 || |states| == 1 ==> states[k].heat == WithHeat(node, run, heat).heat
  {
  }

  lemma ReleasedIsFree(node: Node, run: Owner, record: Record, name: string)
    ensures !Owns(run, Released(node, run, record, name))
  {
  }

  // ---------------------------------------------------------------- the machinery

  datatype Write = Written | NotFound | Refused

  /** The API server's nodes, as one reconcile sees them. */
  class Api {
    var nodes: map<string, Node>
    /** How many more writes land before a conflict, an outage or a crash. */
    var writesLeft: nat
    /** Nodes somebody deletes before this reconcile writes to them. */
    const vanishing: set<string>

    constructor (nodes: map<string, Node>, writesLeft: nat, vanishing: set<string>)
      ensures this.nodes == nodes && this.writesLeft == writesLeft && this.vanishing == vanishing
    {
      this.nodes := nodes;
      this.writesLeft := writesLeft;
      this.vanishing := vanishing;
    }

    method Update(name: string, node: Node) returns (w: Write)
      modifies this
      ensures w.Refused? ==> nodes == old(nodes)
      ensures w.NotFound? ==> nodes == old(nodes) - {name} && (name in vanishing || name !in old(nodes))
      ensures w.Written? ==> nodes == old(nodes)[name := node] && name in old(nodes)
    {
      if writesLeft == 0 {
        return Refused;
      }
      writesLeft := writesLeft - 1;
      if name in vanishing || name !in nodes {
        nodes := nodes - {name};
        return NotFound;
      }
      nodes := nodes[name := node];
      return Written;
    }
  }

  /** A run's side of the cordon: its identity, its start-time record and its list of held nodes. */
  class Holder {
    const run: Owner
    const record: Record
    var cordonedNodes: set<string>

    constructor (run: Owner, record: Record, cordonedNodes: set<string>)
      ensures this.run == run && this.record == record && this.cordonedNodes == cordonedNodes
    {
      this.run := run;
      this.record := record;
      this.cordonedNodes := cordonedNodes;
    }

    /** A node is as it was, or was this run's and is restored. */
    predicate KeptOrReleased(before: Node, after: Node, name: string) {
      after == before || (Owns(run, before) && after == Released(before, run, record, name))
    }

    /** cordonNode: the node ends at one of its CordonStates, at the last one unless a write was refused. */
    method CordonNode(api: Api, name: string, heat: Heat) returns (changed: bool, ok: bool)
      modifies api, this
      ensures forall n :: n != name ==> (n in api.nodes <==> n in old(api.nodes))
      ensures forall n :: n != name && n in api.nodes ==> api.nodes[n] == old(api.nodes)[n]
      ensures name in api.nodes ==> name in old(api.nodes)
      ensures name in api.nodes ==>
                var states := CordonStates(old(api.nodes)[name], run, record, name, heat);
                && api.nodes[name] in states
                && (ok ==> api.nodes[name] == states[|states| - 1])
      ensures name !in api.nodes && ok ==> name !in old(api.nodes)
      ensures ok && name in api.nodes && Owns(run, api.nodes[name]) && Nameable(run) && (heat.Declare? ==> Writable(heat.expiry)) ==>
                HeatSettled(run.uid, heat, old(api.nodes)[name], api.nodes[name])
      ensures ok && name in api.nodes && Owns(run, api.nodes[name]) ==> cordonedNodes == old(cordonedNodes) + {name}
      ensures !(ok && name in api.nodes && Owns(run, api.nodes[name])) ==> cordonedNodes == old(cordonedNodes)
      ensures changed == (cordonedNodes != old(cordonedNodes))
    {
      changed, ok := false, false;
      if name !in api.nodes {
        ok := true;
        return;
      }
      var node := api.nodes[name];
      ghost var found := node;
      var held := cordonedNodes;
      if Owns(run, node) {
        var before := node;
        node := WithHeat(node, run, heat);
        if !node.unschedulable {
          node := node.(unschedulable := true);
        }
        if node != before {
          var w := api.Update(name, node);
          if !w.Written? {
            return;
          }
        }
        held := held + {name};
      } else if Value(node.owner) != "" {
        // somebody else's: not taken, not recorded
      } else {
        var prior := PriorUnschedulable(record, name, node.unschedulable);
        node := node.(owner := Some(OwnerId(run)), prior := Some(FormatBool(prior)));
        node := WithHeat(node, run, heat);
        var w := api.Update(name, node);
        if !w.Written? {
          return;
        }
        if !node.unschedulable {
          node := node.(unschedulable := true);
          w := api.Update(name, node);
          if !w.Written? {
            return;
          }
        }
        held := held + {name};
      }
      if Nameable(run) && (heat.Declare? ==> Writable(heat.expiry)) && (Value(found.owner) == "" || Owns(run, found)) {
        ClaimSettlesHeat(found, run, record, name, heat, |CordonStates(found, run, record, name, heat)| - 1);
      }
      ok := true;
      changed := held != cordonedNodes;
      cordonedNodes := held;
    }

    /** releaseNode: a node this run owns is restored; anybody else's is only dropped from the list. */
    method ReleaseNode(api: Api, name: string) returns (changed: bool, ok: bool)
      modifies api, this
      ensures forall n :: n != name ==> (n in api.nodes <==> n in old(api.nodes))
      ensures forall n :: n != name && n in api.nodes ==> api.nodes[n] == old(api.nodes)[n]
      ensures name in api.nodes ==> name in old(api.nodes)
      ensures name in old(api.nodes) && !Owns(run, old(api.nodes)[name]) ==> api.nodes == old(api.nodes)
      ensures ok && name in api.nodes && Owns(run, old(api.nodes)[name]) ==>
                && api.nodes[name] == Released(old(api.nodes)[name], run, record, name)
                && GivenBack(run.uid, record, name, old(api.nodes)[name], api.nodes[name])
      ensures !ok ==> api.nodes == old(api.nodes) && cordonedNodes == old(cordonedNodes)
      ensures ok ==> cordonedNodes == old(cordonedNodes) - {name}
      ensures changed == (cordonedNodes != old(cordonedNodes))
    {
      changed, ok := false, false;
      if name in api.nodes && Owns(run, api.nodes[name]) {
        var node := api.nodes[name];
        var prior := RestoredUnschedulable(record, name, node);
        node := node.(unschedulable := prior, owner := None, prior := None);
        node := DropHeat(node, run.uid);
        ReleaseGivesBack(api.nodes[name], run, record, name);
        var w := api.Update(name, node);
        if w.Refused? {
          return;
        }
      }
      ok := true;
      changed := name in cordonedNodes;
      cordonedNodes := cordonedNodes - {name};
    }

    /** releaseHeldNodes: gives back exactly the listed nodes outside the current wave. */
    method ReleaseHeldNodes(api: Api, wave: set<string>) returns (changed: bool, ok: bool)
      modifies api, this
      ensures forall n :: n in wave || n !in old(cordonedNodes) ==>
                (n in api.nodes <==> n in old(api.nodes)) && (n in api.nodes ==> api.nodes[n] == old(api.nodes)[n])
      ensures forall n :: n in api.nodes ==> n in old(api.nodes)
      ensures forall n :: n in api.nodes ==> KeptOrReleased(old(api.nodes)[n], api.nodes[n], n)
      ensures ok ==> cordonedNodes == old(cordonedNodes) * wave
      ensures ok ==> forall n :: n in api.nodes && n in old(cordonedNodes) - wave ==> !Owns(run, api.nodes[n])
      ensures old(cordonedNodes) * wave <= cordonedNodes <= old(cordonedNodes)
    {
      changed, ok := false, true;
      var todo := cordonedNodes - wave;
      ghost var before := api.nodes;
      while todo != {}
        invariant todo <= old(cordonedNodes) - wave
        invariant cordonedNodes == old(cordonedNodes) * wave + todo
        invariant forall n :: n in todo || n in wave || n !in old(cordonedNodes) ==>
                    (n in api.nodes <==> n in before) && (n in api.nodes ==> api.nodes[n] == before[n])
        invariant forall n :: n in api.nodes ==> n in before
        invariant forall n :: n in api.nodes ==> KeptOrReleased(before[n], api.nodes[n], n)
        invariant forall n :: n in api.nodes && n in old(cordonedNodes) - wave - todo ==> !Owns(run, api.nodes[n])
        decreases todo
      {
        var name :| name in todo;
        var c, k := ReleaseNode(api, name);
        if !k {
          return changed, false;
        }
        changed := changed || c;
        todo := todo - {name};
      }
    }

    /**
      releaseCordons: found by scanning every node for the stamp, never from the
      status list. A full release leaves no node with this run's stamp, restores
      each one that had it, and touches nothing stamped by anybody else.
    */
    method ReleaseCordons(api: Api, listed: seq<string>) returns (changed: bool, ok: bool)
      requires forall n :: n in api.nodes ==> n in listed
      modifies api, this
      ensures forall n :: n in old(api.nodes) && !Owns(run, old(api.nodes)[n]) ==>
                n in api.nodes && api.nodes[n] == old(api.nodes)[n]
      ensures forall n :: n in api.nodes ==> n in old(api.nodes)
      ensures forall n :: n in api.nodes ==> KeptOrReleased(old(api.nodes)[n], api.nodes[n], n)
      ensures forall n :: n in api.nodes && Owns(run, old(api.nodes)[n]) && ok ==>
                GivenBack(run.uid, record, n, old(api.nodes)[n], api.nodes[n])
      ensures forall n :: n in old(api.nodes) && n !in api.nodes ==> n in api.vanishing
      ensures ok ==> (forall n :: n in api.nodes ==> !Owns(run, api.nodes[n])) && cordonedNodes == {}
      ensures !ok ==> cordonedNodes == old(cordonedNodes)
    {
      hide RestoredUnschedulable, DropHeat;
      changed, ok := false, true;
      var snapshot := api.nodes;
      var i := 0;
      while i < |listed|
        invariant 0 <= i <= |listed|
        invariant forall n :: n in snapshot && !Owns(run, snapshot[n]) ==> n in api.nodes && api.nodes[n] == snapshot[n]
        invariant forall n :: n in api.nodes ==> n in snapshot
        invariant forall n :: n in api.nodes ==> KeptOrReleased(snapshot[n], api.nodes[n], n)
        invariant forall n :: n in snapshot && n !in api.nodes ==> n in api.vanishing
        invariant forall n :: n in api.nodes && n in listed[..i] ==> !Owns(run, api.nodes[n])
        invariant cordonedNodes == old(cordonedNodes)
      {
        var name := listed[i];
        if name in snapshot && Owns(run, snapshot[name]) {
          var node := snapshot[name];
          var prior := RestoredUnschedulable(record, name, node);
          node := node.(unschedulable := prior, owner := None, prior := None);
          node := DropHeat(node, run.uid);
          ReleasedIsFree(snapshot[name], run, record, name);
          var w := api.Update(name, node);
          if w.Refused? {
            return changed, false;
          }
          changed := true;
        }
        i := i + 1;
      }
      forall n | n in api.nodes && Owns(run, snapshot[n]) ensures GivenBack(run.uid, record, n, snapshot[n], api.nodes[n]) {
        ReleaseGivesBack(snapshot[n], run, record, n);
        assert KeptOrReleased(snapshot[n], api.nodes[n], n) && n in listed[..|listed|];
      }
      if cordonedNodes != {} {
        cordonedNodes := {};
        changed := true;
      }
    }
  }
}
