/**
  Which of several runs contending for a node may take it: a strict total order
  over runs, and a scan for anybody who precedes.
*/
module Admission {
  import opened Base

  /** A BurnInRun as the admission scan sees it. */
  datatype Run = Run(
    uid: string,
    created: int,           // creation timestamp, in seconds
    forced: bool,           // spec.force
    targets: set<string>,   // resolved or pinned targets
    pinned: bool,           // the plan annotation is present
    started: bool,          // status.startedAt is set
    finalizer: bool,
    terminal: bool,
    deleting: bool
  )

  /** Byte order on UIDs. */
  predicate Less(a: string, b: string) {
    b != [] && (a == [] || a[0] < b[0] || (a[0] == b[0] && Less(a[1..], b[1..])))
  }

  lemma {:induction false} LessTrichotomy(a: string, b: string)
    ensures a == b ==> !Less(a, b)
    ensures a != b ==> Less(a, b) != Less(b, a)
  {
    if a != [] && b != [] && a[0] == b[0] {
      LessTrichotomy(a[1..], b[1..]);
      assert a == [a[0]] + a[1..] && b == [b[0]] + b[1..];
    }
  }

  /** They part at some byte, where a has the smaller one or none. */
  predicate PartsBefore(a: string, b: string, k: nat) {
    k <= |a| && k < |b| && a[..k] == b[..k] && (k == |a| || a[k] < b[k])
  }

  lemma SameFirst(a: string, b: string, k: nat)
    requires PartsBefore(a, b, k)
    ensures k > 0 ==> a != [] && a[0] == b[0]
  {
    if k > 0 { assert a[0] == a[..k][0] && b[0] == b[..k][0]; }
  }

  /** Byte order is lexicographic order, a prefix first. */
  lemma {:induction false} LessIsLexicographic(a: string, b: string)
    ensures Less(a, b) <==> exists k: nat :: PartsBefore(a, b, k)
  {
    if b != [] && (a == [] || a[0] != b[0]) {
      if Less(a, b) { assert PartsBefore(a, b, 0); }
      if k: nat :| PartsBefore(a, b, k) { SameFirst(a, b, k); }
    } else if b != [] {
      LessIsLexicographic(a[1..], b[1..]);
      if k: nat :| PartsBefore(a[1..], b[1..], k) {
        assert a[..k + 1] == [a[0]] + a[1..][..k] && b[..k + 1] == [b[0]] + b[1..][..k];
        assert PartsBefore(a, b, k + 1);
      }
      if k: nat :| PartsBefore(a, b, k) {
        assert k > 0 && a[1..][..k - 1] == a[..k][1..] && b[1..][..k - 1] == b[..k][1..];
        assert PartsBefore(a[1..], b[1..], k - 1);
      }
    }
  }

  lemma {:induction false} LessTransitive(a: string, b: string, c: string)
    requires Less(a, b) && Less(b, c)
    ensures Less(a, c)
  {
    if a != [] && b != [] && a[0] == b[0] && b[0] == c[0] {
      LessTransitive(a[1..], b[1..], c[1..]);
    }
  }

  /** The order two runs are in before either has started. */
  predicate Older(a: Run, b: Run) {
    if a.created != b.created then a.created < b.created else Less(a.uid, b.uid)
  }

  predicate AdmissionOrder(a: Run, b: Run) {
    if a.started != b.started then a.started else Older(a, b)
  }

  /** A strict total order: of two different runs, exactly one precedes the other. */
  lemma OrderIsTotal(a: Run, b: Run)
    ensures a.uid == b.uid && a.created == b.created && a.started == b.started ==> !AdmissionOrder(a, b)
    ensures a.uid != b.uid ==> AdmissionOrder(a, b) != AdmissionOrder(b, a)
  {
    LessTrichotomy(a.uid, b.uid);
  }

  lemma OrderIsTransitive(a: Run, b: Run, c: Run)
    requires AdmissionOrder(a, b) && AdmissionOrder(b, c)
    ensures AdmissionOrder(a, c)
  {
    if a.uid != b.uid && Less(a.uid, b.uid) && Less(b.uid, c.uid) {
      LessTransitive(a.uid, b.uid, c.uid);
    }
    LessTrichotomy(a.uid, b.uid);
    LessTrichotomy(b.uid, c.uid);
  }

  /** Still in a position to occupy nodes: the finalizer is the authority, the phase the fallback. */
  predicate RunHolds(r: Run) {
    r.finalizer || !r.terminal
  }

  /** Another run that must be refused to: it holds, it comes first, and it wants one of the same nodes. */
  predicate Contends(other: Run, run: Run) {
    && other.uid != run.uid && RunHolds(other) && AdmissionOrder(other, run)
    && other.targets * run.targets != {}
  }

  datatype Conflict = Conflict(run: Run, nodes: set<string>)

  /** The run every other contender would also lose to. */
  predicate IsLeastContender(c: Run, runs: seq<Run>, run: Run) {
    && c in runs && Contends(c, run)
    && forall o :: o in runs && Contends(o, run) && o.uid != c.uid ==> AdmissionOrder(c, o)
  }

  predicate DistinctUids(runs: seq<Run>) {
    forall i, j :: 0 <= i < |runs| && 0 <= j < |runs| && runs[i].uid == runs[j].uid ==> runs[i] == runs[j]
  }

  /** overlappingTargets: which wanted nodes another run targets. */
  method OverlappingTargets(targets: set<string>, wanted: set<string>) returns (overlap: set<string>)
    ensures overlap == targets * wanted
  {
    overlap := {};
    var todo := targets;
    while todo != {}
      invariant todo <= targets
      invariant overlap == (targets - todo) * wanted
      decreases todo
    {
      var n :| n in todo;
      if n in wanted {
        overlap := overlap + {n};
      }
      todo := todo - {n};
    }
  }

  /** findConflict: one pass over the list in whatever order it comes, keeping the best so far. */
  method FindConflict(runs: seq<Run>, run: Run) returns (found: Option<Conflict>)
    requires DistinctUids(runs)
    ensures found.None? <==> forall o :: o in runs ==> !Contends(o, run)
    ensures found.Some? ==> IsLeastContender(found.value.run, runs, run)
    ensures found.Some? ==> found.value.nodes == found.value.run.targets * run.targets
  {
    found := None;
    for i := 0 to |runs|
      invariant found.None? ==> forall o :: o in runs[..i] ==> !Contends(o, run)
      invariant found.Some? ==> IsLeastContender(found.value.run, runs[..i], run)
      invariant found.Some? ==> found.value.nodes == found.value.run.targets * run.targets
    {
      var other := runs[i];
      assert runs[..i + 1] == runs[..i] + [other];
      if other.uid == run.uid || !RunHolds(other) || !AdmissionOrder(other, run) {
        continue;
      }
      var overlap := OverlappingTargets(other.targets, run.targets);
      if overlap == {} {
        continue;
      }
      if found.None? {
        found := Some(Conflict(other, overlap));
      } else {
        var best := found.value.run;
        OrderIsTotal(other, best);
        if AdmissionOrder(other, best) {
          forall o | o in runs[..i + 1] && Contends(o, run) && o.uid != other.uid
            ensures AdmissionOrder(other, o)
          {
            if o.uid != best.uid {
              OrderIsTransitive(other, best, o);
            } else {
              assert o == best;
            }
          }
          found := Some(Conflict(other, overlap));
        }
      }
    }
    assert runs[..|runs|] == runs;
  }

  /** The reported conflict does not depend on the order the list came in. */
  lemma ConflictIsListOrderFree(runs: seq<Run>, again: seq<Run>, run: Run, a: Run, b: Run)
    requires (forall r :: r in runs <==> r in again) && DistinctUids(runs)
    requires IsLeastContender(a, runs, run) && IsLeastContender(b, again, run)
    ensures a == b
  {
    OrderIsTotal(a, b);
    assert a in again && b in runs;
  }

  /** The first of the contenders in the order is never refused. */
  lemma LeastIsAdmitted(runs: seq<Run>, run: Run)
    requires forall o :: o in runs && o.uid != run.uid && RunHolds(o) && o.targets * run.targets != {} ==> AdmissionOrder(run, o)
    ensures forall o :: o in runs ==> !Contends(o, run)
  {
    forall o | o in runs ensures !Contends(o, run) {
      OrderIsTotal(run, o);
    }
  }

  /** Two runs that want a node in common, the other still bound to it: its finalizer is on, or it has not ended. */
  ghost predicate Overlaps(other: Run, run: Run) {
    && other.uid != run.uid && (other.finalizer || !other.terminal)
    && exists n :: n in other.targets && n in run.targets
  }

  /**
    Who is refused to whom. Among runs that want the same node, a started run beats one that
    has not started; of two that both have or both have not, the one created earlier wins, and
    within one second the one whose UID parts from the other's with the smaller byte.
  */
  lemma TheElderWins(other: Run, run: Run)
    ensures Contends(other, run) <==>
      && Overlaps(other, run)
      && (|| (other.started && !run.started)
          || (other.started == run.started && other.created < run.created)
          || (other.started == run.started && other.created == run.created && exists k: nat :: PartsBefore(other.uid, run.uid, k)))
  {
    LessIsLexicographic(other.uid, run.uid);
    if Overlaps(other, run) {
      var n :| n in other.targets && n in run.targets;
      assert n in other.targets * run.targets;
    }
  }

  /** So nobody is in the way of an unstarted run created before every overlapping one, while none of those has started. */
  lemma EldestIsAdmitted(runs: seq<Run>, run: Run)
    requires !run.started
    requires forall o :: o in runs && Overlaps(o, run) ==> !o.started && run.created < o.created
    ensures forall o :: o in runs ==> !Contends(o, run)
  {
    forall o | o in runs ensures !Contends(o, run) { TheElderWins(o, run); }
  }

  /** A started run yields only to one that has started too and is older. */
  lemma StartedYieldsToStarted(runs: seq<Run>, run: Run)
    requires run.started
    ensures forall o :: o in runs && Contends(o, run) ==> o.started && o.created <= run.created
  {
    forall o | o in runs ensures Contends(o, run) ==> o.started && o.created <= run.created { TheElderWins(o, run); }
  }

  /** Among the runs still holding there is a first. */
  lemma {:induction false} FirstHolder(runs: seq<Run>) returns (first: Run)
    requires (exists r :: r in runs && RunHolds(r)) && DistinctUids(runs)
    ensures first in runs && RunHolds(first)
    ensures forall o :: o in runs && RunHolds(o) && o.uid != first.uid ==> AdmissionOrder(first, o)
  {
    var rest := runs[1..];
    assert runs == [runs[0]] + rest;
    if exists r :: r in rest && RunHolds(r) {
      var r := FirstHolder(rest);
      OrderIsTotal(runs[0], r);
      if RunHolds(runs[0]) && runs[0].uid != r.uid && AdmissionOrder(runs[0], r) {
        first := runs[0];
        forall o | o in runs && RunHolds(o) && o.uid != first.uid ensures AdmissionOrder(first, o) {
          if o.uid != r.uid { OrderIsTransitive(first, r, o); } else { assert o == r; }
        }
      } else {
        first := r;
      }
    } else {
      first := runs[0];
    }
  }

  /** However many runs arrive at once, one that is still in a position to take its nodes is admitted. */
  lemma SomeoneIsAdmitted(runs: seq<Run>) returns (first: Run)
    requires (exists r :: r in runs && RunHolds(r)) && DistinctUids(runs)
    ensures first in runs && RunHolds(first) && forall o :: o in runs ==> !Contends(o, first)
  {
    first := FirstHolder(runs);
    LeastIsAdmitted(runs, first);
  }
}
