/**
  Admission over interleavings: any number of runs scanning, pinning, starting and
  finishing in any order, with the scan's answer held only in memory until the
  plan is pinned, and a crash possible at any point.
*/
module AdmissionProtocol {
  import opened Base
  import opened Admission

  datatype State = State(
    runs: map<string, Run>,   // by UID
    used: set<string>,        // every UID ever issued
    granted: set<string>      // runs whose scan said yes, in memory only
  )

  datatype Action =
    | Create(run: Run)
    | Scan(uid: string)
    | Pin(uid: string)        // plan and finalizer in one write
    | Start(uid: string)      // status.startedAt
    | Finish(uid: string)     // terminal phase: a verdict, a refusal or an error
    | Release(uid: string)    // the finalizer comes off
    | Delete(uid: string)
    | Vanish(uid: string)
    | Crash(uid: string)

  /** What the scan answers: nobody in the way, or spec.force. */
  predicate Admits(s: State, u: string)
    requires u in s.runs
  {
    s.runs[u].forced || forall v :: v in s.runs ==> !Contends(s.runs[v], s.runs[u])
  }

  predicate Enabled(s: State, a: Action) {
    match a
    case Create(r) =>
      r.uid !in s.used && !r.pinned && !r.started && !r.finalizer && !r.terminal && !r.deleting
    case Scan(u) => u in s.runs && !s.runs[u].pinned && !s.runs[u].terminal
    case Pin(u) => u in s.runs && u in s.granted && !s.runs[u].pinned && !s.runs[u].terminal
    case Start(u) => u in s.runs && s.runs[u].pinned && !s.runs[u].terminal
    case Finish(u) => u in s.runs
    case Release(u) => u in s.runs && (s.runs[u].terminal || s.runs[u].deleting)
    case Delete(u) => u in s.runs
    case Vanish(u) => u in s.runs && s.runs[u].deleting && !s.runs[u].finalizer
    case Crash(u) => true
  }

  function Apply(s: State, a: Action): State
    requires Enabled(s, a)
  {
    match a
    case Create(r) => s.(runs := s.runs[r.uid := r], used := s.used + {r.uid})
    case Scan(u) => if Admits(s, u) then s.(granted := s.granted + {u}) else s.(granted := s.granted - {u})
    case Pin(u) => s.(runs := s.runs[u := s.runs[u].(pinned := true, finalizer := true)])
    case Start(u) => s.(runs := s.runs[u := s.runs[u].(started := true)])
    case Finish(u) => s.(runs := s.runs[u := s.runs[u].(terminal := true)])
    case Release(u) => s.(runs := s.runs[u := s.runs[u].(finalizer := false)])
    case Delete(u) => s.(runs := s.runs[u := s.runs[u].(deleting := true)])
    case Vanish(u) => s.(runs := s.runs - {u}, granted := s.granted - {u})
    case Crash(u) => s.(granted := s.granted - {u})
  }

  /** Two runs that want the same hardware, neither with spec.force. */
  predicate Rivals(a: Run, b: Run) {
    a.uid != b.uid && !a.forced && !b.forced && a.targets * b.targets != {}
  }

  /** Told yes and still holding: has passed the gate, durably or in memory. */
  predicate PastGate(s: State, u: string) {
    u in s.runs && RunHolds(s.runs[u]) && (s.runs[u].pinned || u in s.granted)
  }

  /**
    The ordering the interlock leans on: a run that appears while a rival has been
    told yes but has not yet recorded its start sorts after that rival.
  */
  ghost predicate Orderly(s: State, a: Action) {
    a.Create? ==> forall u :: PastGate(s, u) && !s.runs[u].started && Rivals(s.runs[u], a.run) ==> Older(s.runs[u], a.run)
  }

  predicate Possible(s: State, trace: seq<Action>)
    decreases |trace|
  {
    trace == [] || (Enabled(s, trace[0]) && Possible(Apply(s, trace[0]), trace[1..]))
  }

  ghost predicate AllOrderly(s: State, trace: seq<Action>)
    requires Possible(s, trace)
    decreases |trace|
  {
    trace == [] || (Orderly(s, trace[0]) && AllOrderly(Apply(s, trace[0]), trace[1..]))
  }

  function After(s: State, trace: seq<Action>): State
    requires Possible(s, trace)
    decreases |trace|
  {
    if trace == [] then s else After(Apply(s, trace[0]), trace[1..])
  }

  const EMPTY := State(map[], {}, {})

  predicate RunOk(s: State, u: string)
    requires u in s.runs
  {
    s.runs[u].uid == u && u in s.used && (s.runs[u].started ==> s.runs[u].pinned)
  }

  /** Whoever is past the gate precedes every rival still holding. */
  ghost predicate Inv(s: State) {
    && s.granted <= s.runs.Keys
    && (forall u :: u in s.runs ==> RunOk(s, u))
    && (forall u, v :: PastGate(s, u) && v in s.runs && RunHolds(s.runs[v]) && Rivals(s.runs[u], s.runs[v])
                       ==> AdmissionOrder(s.runs[u], s.runs[v]))
  }

  /** Two rivals are never both past the gate. */
  lemma Exclusive(s: State, u: string, v: string)
    requires Inv(s) && PastGate(s, u) && PastGate(s, v)
    ensures !Rivals(s.runs[u], s.runs[v])
  {
    OrderIsTotal(s.runs[u], s.runs[v]);
  }

  lemma ScanKeeps(s: State, u: string)
    requires Inv(s) && Enabled(s, Scan(u))
    ensures Inv(Apply(s, Scan(u)))
  {
    var t := Apply(s, Scan(u));
    forall v | v in t.runs && RunHolds(t.runs[v]) && Rivals(t.runs[u], t.runs[v]) && PastGate(t, u)
      ensures AdmissionOrder(t.runs[u], t.runs[v])
    {
      assert !Contends(s.runs[v], s.runs[u]);
      assert RunOk(s, u) && RunOk(s, v);
      assert s.runs[v].targets * s.runs[u].targets == s.runs[u].targets * s.runs[v].targets;
      OrderIsTotal(s.runs[u], s.runs[v]);
    }
  }

  /** Starting changes the order, but only in favour of a run nobody else is past the gate against. */
  lemma StartKeeps(s: State, u: string)
    requires Inv(s) && Enabled(s, Start(u))
    ensures Inv(Apply(s, Start(u)))
  {
    var t := Apply(s, Start(u));
    forall a, b | PastGate(t, a) && b in t.runs && RunHolds(t.runs[b]) && Rivals(t.runs[a], t.runs[b])
      ensures AdmissionOrder(t.runs[a], t.runs[b])
    {
      assert PastGate(s, a) && RunOk(s, a) && RunOk(s, b);
      if b == u {
        Exclusive(s, a, u);
      } else if a == u && s.runs[b].started {
        Exclusive(s, a, b);
      }
    }
  }

  /** Nothing the order depends on moved, and nobody new got past the gate. */
  lemma QuietKeeps(s: State, t: State)
    requires Inv(s) && t.runs.Keys <= s.runs.Keys && t.used == s.used && t.granted <= t.runs.Keys
    requires forall u :: u in t.runs ==>
               && RunOk(t, u) && (PastGate(t, u) ==> PastGate(s, u)) && (RunHolds(t.runs[u]) ==> RunHolds(s.runs[u]))
               && t.runs[u] == s.runs[u].(pinned := t.runs[u].pinned, finalizer := t.runs[u].finalizer,
                                          terminal := t.runs[u].terminal, deleting := t.runs[u].deleting)
    ensures Inv(t)
  {
    forall u, v | PastGate(t, u) && v in t.runs && RunHolds(t.runs[v]) && Rivals(t.runs[u], t.runs[v])
      ensures AdmissionOrder(t.runs[u], t.runs[v])
    {
      assert PastGate(s, u) && Rivals(s.runs[u], s.runs[v]);
    }
  }

  lemma CreateKeeps(s: State, r: Run)
    requires Inv(s) && Enabled(s, Create(r)) && Orderly(s, Create(r))
    ensures Inv(Apply(s, Create(r)))
  {
    var t := Apply(s, Create(r));
    forall u, v | PastGate(t, u) && v in t.runs && RunHolds(t.runs[v]) && Rivals(t.runs[u], t.runs[v])
      ensures AdmissionOrder(t.runs[u], t.runs[v])
    {
      assert RunOk(t, u) && RunOk(t, v);
      assert PastGate(s, u);
    }
  }

  lemma StepKeeps(s: State, a: Action)
    requires Inv(s) && Enabled(s, a) && Orderly(s, a)
    ensures Inv(Apply(s, a))
  {
    hide Contends, AdmissionOrder;
    match a
    case Scan(u) => ScanKeeps(s, u);
    case Start(u) => StartKeeps(s, u);
    case Create(r) => CreateKeeps(s, r);
    case _ => QuietKeeps(s, Apply(s, a));
  }

  lemma {:induction false} TraceKeeps(s: State, trace: seq<Action>)
    requires Inv(s) && Possible(s, trace) && AllOrderly(s, trace)
    ensures Inv(After(s, trace))
    decreases |trace|
  {
    if trace != [] {
      StepKeeps(s, trace[0]);
      TraceKeeps(Apply(s, trace[0]), trace[1..]);
    }
  }

  /**
    Mutual exclusion: over every orderly interleaving, crashes included, two
    unforced runs with a target in common are never both pinned and still holding.
  */
  lemma MutualExclusion(trace: seq<Action>, u: string, v: string)
    requires Possible(EMPTY, trace) && AllOrderly(EMPTY, trace)
    requires var s := After(EMPTY, trace); PastGate(s, u) && PastGate(s, v)
    ensures var s := After(EMPTY, trace); !Rivals(s.runs[u], s.runs[v])
  {
    TraceKeeps(EMPTY, trace);
    Exclusive(After(EMPTY, trace), u, v);
  }

  /** A run is created later, by the clock, than every run that is there. */
  ghost predicate InTime(s: State, a: Action) {
    a.Create? ==> forall u :: u in s.runs ==> s.runs[u].created < a.run.created
  }

  ghost predicate AllInTime(s: State, trace: seq<Action>)
    requires Possible(s, trace)
    decreases |trace|
  {
    trace == [] || (InTime(s, trace[0]) && AllInTime(Apply(s, trace[0]), trace[1..]))
  }

  lemma {:induction false} InTimeIsOrderly(s: State, trace: seq<Action>)
    requires Possible(s, trace) && AllInTime(s, trace)
    ensures AllOrderly(s, trace)
    decreases |trace|
  {
    if trace != [] {
      assert Orderly(s, trace[0]);
      hide Apply, Enabled, Orderly, InTime;
      InTimeIsOrderly(Apply(s, trace[0]), trace[1..]);
    }
  }

  /**
    In terms of the clock: where creation timestamps strictly increase, two unforced runs with
    a target in common are never both told yes, pinned or not, while each has its finalizer or
    has not ended.
  */
  lemma ExclusionByTheClock(trace: seq<Action>, u: string, v: string)
    requires Possible(EMPTY, trace) && AllInTime(EMPTY, trace)
    requires var s := After(EMPTY, trace); u in s.runs && v in s.runs && u != v
    ensures var s := After(EMPTY, trace);
            var a, b := s.runs[u], s.runs[v];
            !(&& !a.forced && !b.forced && (exists n :: n in a.targets && n in b.targets)
              && (a.finalizer || !a.terminal) && (b.finalizer || !b.terminal)
              && (a.pinned || u in s.granted) && (b.pinned || v in s.granted))
  {
    InTimeIsOrderly(EMPTY, trace);
    TraceKeeps(EMPTY, trace);
    var s := After(EMPTY, trace);
    var a, b := s.runs[u], s.runs[v];
    assert RunOk(s, u) && RunOk(s, v);
    if n :| n in a.targets && n in b.targets { assert n in a.targets * b.targets; }
    if PastGate(s, u) && PastGate(s, v) {
      MutualExclusion(trace, u, v);
    }
  }

  lemma ThreeSteps(s: State, a: Action, b: Action, c: Action)
    requires Enabled(s, a) && Enabled(Apply(s, a), b) && Enabled(Apply(Apply(s, a), b), c)
    ensures Possible(s, [a, b, c]) && After(s, [a, b, c]) == Apply(Apply(Apply(s, a), b), c)
  {
    var s1 := Apply(s, a);
    var s2 := Apply(s1, b);
    assert [a, b, c][1..] == [b, c] && [b, c][1..] == [c] && [c][1..] == [];
    var s3 := Apply(s2, c);
    assert Possible(s3, []) && After(s3, []) == s3;
    assert Possible(s2, [c]) && After(s2, [c]) == s3;
    assert Possible(s1, [b, c]) && After(s1, [b, c]) == After(s2, [c]);
  }

  /** A newcomer that sorts before a rival already told yes, with nobody else holding what it wants, gets past the gate beside it. */
  lemma UnopposedNewcomer(s: State, u: string, r: Run)
    requires PastGate(s, u) && s.runs[u].uid == u && !s.runs[u].started && u in s.used
    requires Enabled(s, Create(r)) && Rivals(s.runs[u], r) && !Older(s.runs[u], r)
    requires forall v :: v in s.runs && v != u ==> !Contends(s.runs[v], r)
    ensures var trace := [Create(r), Scan(r.uid), Pin(r.uid)];
            && Possible(s, trace)
            && var t := After(s, trace);
               && PastGate(t, u) && PastGate(t, r.uid) && Rivals(t.runs[u], t.runs[r.uid])
               && t.runs[u] == s.runs[u] && t.runs[r.uid] == r.(pinned := true, finalizer := true)
  {
    var s1 := Apply(s, Create(r));
    assert !Contends(s1.runs[u], r);
    assert Admits(s1, r.uid);
    ThreeSteps(s, Create(r), Scan(r.uid), Pin(r.uid));
  }

  /** One run reaches its end and gives up its hold; nothing else moves. */
  lemma Retire(s: State, v: string)
    requires v in s.runs
    ensures var trace := [Finish(v), Release(v)];
            Possible(s, trace) && After(s, trace) == s.(runs := s.runs[v := s.runs[v].(terminal := true, finalizer := false)])
  {
    var s1 := Apply(s, Finish(v));
    assert [Finish(v), Release(v)][1..] == [Release(v)] && [Release(v)][1..] == [];
    var s2 := Apply(s1, Release(v));
    assert Possible(s2, []) && After(s2, []) == s2;
    assert Possible(s1, [Release(v)]) && After(s1, [Release(v)]) == s2;
    assert s2.runs == s.runs[v := s.runs[v].(terminal := true, finalizer := false)];
  }

  /** Every run but one can come to its end. */
  lemma {:induction false} RetireAll(s: State, u: string, todo: set<string>) returns (trace: seq<Action>)
    requires u in s.runs && todo <= s.runs.Keys - {u}
    ensures Possible(s, trace)
    ensures var t := After(s, trace);
            && t.used == s.used && t.granted == s.granted && t.runs.Keys == s.runs.Keys && t.runs[u] == s.runs[u]
            && (forall v :: v in todo ==> !RunHolds(t.runs[v]))
            && (forall v :: v in s.runs && !RunHolds(s.runs[v]) ==> !RunHolds(t.runs[v]))
    decreases todo
  {
    if todo == {} {
      trace := [];
    } else {
      var v :| v in todo;
      var first := [Finish(v), Release(v)];
      Retire(s, v);
      var s1 := After(s, first);
      assert !RunHolds(s1.runs[v]);
      hide After, Possible, RunHolds;
      var rest := RetireAll(s1, u, todo - {v});
      trace := first + rest;
      PossibleConcat(s, first, rest);
      assert forall w :: w in s.runs && !RunHolds(s.runs[w]) ==> !RunHolds(s1.runs[w]);
    }
  }

  /**
    The ordering is exactly what is needed. From every state the protocol can be in, any
    creation out of order can be followed, once whoever else is in the way has come to its
    end, by both rivals being past the gate.
  */
  lemma DisorderBreaksExclusion(s: State, r: Run) returns (u: string, trace: seq<Action>)
    requires Inv(s) && Enabled(s, Create(r)) && !Orderly(s, Create(r))
    ensures Possible(s, trace) && Create(r) in trace
    ensures PastGate(s, u) && Rivals(s.runs[u], r)
    ensures var t := After(s, trace); PastGate(t, u) && PastGate(t, r.uid) && Rivals(t.runs[u], t.runs[r.uid])
  {
    u :| PastGate(s, u) && !s.runs[u].started && Rivals(s.runs[u], r) && !Older(s.runs[u], r);
    assert RunOk(s, u);
    var clear := RetireAll(s, u, s.runs.Keys - {u});
    var s1 := After(s, clear);
    assert forall v :: v in s1.runs && v != u ==> v in s.runs.Keys - {u};
    hide After, Possible;
    var join := [Create(r), Scan(r.uid), Pin(r.uid)];
    UnopposedNewcomer(s1, u, r);
    PossibleConcat(s, clear, join);
    trace := clear + join;
    assert trace[|clear|] == Create(r);
  }

  /** It happens within one second: creation timestamps tie, and the later run drew the smaller UID. */
  lemma SameSecondRace() returns (trace: seq<Action>)
    ensures Possible(EMPTY, trace)
    ensures var s := After(EMPTY, trace);
            && PastGate(s, "a") && PastGate(s, "b") && Rivals(s.runs["a"], s.runs["b"])
            && s.runs["a"].created == s.runs["b"].created && s.runs["a"].pinned && s.runs["b"].pinned
  {
    var b := Run("b", 0, false, {"node"}, false, false, false, false, false);
    var a := b.(uid := "a");
    var first := [Create(b), Scan("b"), Pin("b")];
    ThreeSteps(EMPTY, Create(b), Scan("b"), Pin("b"));
    var s := After(EMPTY, first);
    assert Apply(EMPTY, Create(b)).runs == map["b" := b];
    assert s.runs == map["b" := b.(pinned := true, finalizer := true)];
    assert "node" in s.runs["b"].targets * a.targets;
    UnopposedNewcomer(s, "b", a);
    trace := first + [Create(a), Scan("a"), Pin("a")];
    PossibleConcat(EMPTY, first, [Create(a), Scan("a"), Pin("a")]);
  }

  lemma {:induction false} PossibleConcat(s: State, first: seq<Action>, second: seq<Action>)
    requires Possible(s, first) && Possible(After(s, first), second)
    ensures Possible(s, first + second) && After(s, first + second) == After(After(s, first), second)
    decreases |first|
  {
    if first == [] {
      assert first + second == second;
    } else {
      PossibleConcat(Apply(s, first[0]), first[1..], second);
      assert (first + second)[1..] == first[1..] + second;
    }
  }
}
