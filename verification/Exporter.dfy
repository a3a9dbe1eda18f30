/**
  The Prometheus exporter: gauges that must always be exactly what each tracked run last
  reported, however runs are observed, forgotten, swept or evicted.
*/
module Exposition {
  import opened Base

  // ---------------------------------------------------------------- label space

  datatype Vec = RunPhase | RunTests | RunStart | RunFinish | TestPhase | TestMetric

  /** One gauge series: a vector and its label values, namespace and run first. */
  datatype Series = Series(vec: Vec, vals: seq<string>)

  datatype RunId = RunId(namespace: string, name: string)

  /** What a series is a statement about: its labels without the ones that change. */
  datatype Key = Key(vec: Vec, identity: seq<string>)

  datatype Sample = Sample(series: Series, val: real)

  type Samples = map<Key, Sample>

  function Arity(vec: Vec): nat {
    match vec
    case RunPhase => 4
    case RunTests => 3
    case RunStart => 2
    case RunFinish => 2
    case TestPhase => 7
    case TestMetric => 9
  }

  function OwnerOf(s: Series): RunId {
    if |s.vals| < 2 then RunId("", "") else RunId(s.vals[0], s.vals[1])
  }

  function KeyOf(s: Series): Key {
    var v := s.vals;
    if |v| != Arity(s.vec) then Key(s.vec, [])
    else match s.vec
      case RunPhase => Key(RunPhase, [v[3]])
      case RunTests => Key(RunTests, [v[2]])
      case RunStart => Key(RunStart, [])
      case RunFinish => Key(RunFinish, [])
      case TestPhase => Key(TestPhase, [v[2], v[5]])
      case TestMetric => Key(TestMetric, [v[2], v[5], v[6]])
  }

  /** Every sample is filed under its own identity and carries its run's labels. */
  predicate Labelled(id: RunId, samples: Samples) {
    forall k :: k in samples ==>
      var s := samples[k].series;
      |s.vals| == Arity(s.vec) && KeyOf(s) == k && OwnerOf(s) == id
  }

  // ---------------------------------------------------------------- what a delivery says

  datatype Report = Report(name: string, kind: string, scope: string, phase: string, nodes: seq<string>,
                           startedAt: Option<int>, finishedAt: Option<int>, metrics: seq<Reading>)

  /** A reading under a registered name; anything else is counted and dropped. */
  datatype Reading = Reading(metric: string, known: Option<(string, string)>, val: Option<real>)

  datatype Envelope = Envelope(id: RunId, profile: string, phase: string, terminal: bool, results: seq<Report>)

  const KNOWN_PHASES := ["Pending", "Running", "Passed", "Failed", "Error", "Skipped", "Cancelled"]

  /** How many of the results are in a phase. */
  ghost function TallyOf(results: seq<Report>, phase: string): nat {
    |set i: nat | i < |results| && results[i].phase == phase|
  }

  function Add(samples: Samples, vec: Vec, vals: seq<string>, val: real): Samples {
    var s := Series(vec, vals);
    samples[KeyOf(s) := Sample(s, val)]
  }

  function PhaseSeries(env: Envelope, p: string): Series {
    Series(RunPhase, [env.id.namespace, env.id.name, env.profile, p])
  }

  function TallySeries(env: Envelope, p: string): Series {
    Series(RunTests, [env.id.namespace, env.id.name, p])
  }

  predicate Has(samples: Samples, s: Series, val: real) {
    KeyOf(s) in samples && samples[KeyOf(s)] == Sample(s, val)
  }

  /** The run reads as being in the phase it reported, and in no other. */
  predicate PhaseTold(env: Envelope, samples: Samples) {
    && (forall i :: 0 <= i < |KNOWN_PHASES| ==> Has(samples, PhaseSeries(env, KNOWN_PHASES[i]), if KNOWN_PHASES[i] == env.phase then 1.0 else 0.0))
    && (env.phase != "" ==> Has(samples, PhaseSeries(env, env.phase), 1.0))
    && (forall k :: k in samples && k.vec.RunPhase? && samples[k].val == 1.0 ==> k.identity == [env.phase])
  }

  /** Every phase, known or merely seen, has its tally of results. */
  ghost predicate TalliesTold(env: Envelope, samples: Samples) {
    && (forall i :: 0 <= i < |KNOWN_PHASES| ==> TallyTold(env, samples, KNOWN_PHASES[i]))
    && (forall i :: 0 <= i < |env.results| ==> TallyTold(env, samples, env.results[i].phase))
    && (forall k :: k in samples && k.vec.RunTests? ==> Tallied(env, k))
  }

  ghost predicate TallyTold(env: Envelope, samples: Samples, p: string) {
    Has(samples, TallySeries(env, p), TallyOf(env.results, p) as real)
  }

  /** A tally for a phase that is known or was seen. */
  predicate Tallied(env: Envelope, k: Key) {
    || (exists i :: 0 <= i < |KNOWN_PHASES| && k == KeyOf(TallySeries(env, KNOWN_PHASES[i])))
    || (exists i :: 0 <= i < |env.results| && k == KeyOf(TallySeries(env, env.results[i].phase)))
  }

  /** More samples, none of the given vectors' among them replaced. */
  predicate Extends(given: Samples, next: Samples, vecs: set<Vec>) {
    && (forall k :: k in given && k.vec !in vecs ==> k in next && next[k] == given[k])
    && (forall k :: k in next && k.vec !in vecs ==> k in given)
  }

  lemma AddLabelled(id: RunId, samples: Samples, vec: Vec, vals: seq<string>, val: real)
    requires Labelled(id, samples) && |vals| == Arity(vec) && vals[0] == id.namespace && vals[1] == id.name
    ensures Labelled(id, Add(samples, vec, vals, val))
    ensures Has(Add(samples, vec, vals, val), Series(vec, vals), val)
    ensures KeyOf(Series(vec, vals)).vec == vec
  {
  }

  method RunPhaseSamples(env: Envelope) returns (next: Samples)
    ensures Labelled(env.id, next) && PhaseTold(env, next)
    ensures forall k :: k in next ==> k.vec.RunPhase?
  {
    hide KeyOf, Labelled, Has, PhaseSeries;
    next := map[];
    assert Labelled(env.id, next) by { NoneLabelled(env.id); }
    for i := 0 to |KNOWN_PHASES|
      invariant Labelled(env.id, next)
      invariant forall j :: 0 <= j < i ==> Has(next, PhaseSeries(env, KNOWN_PHASES[j]), if KNOWN_PHASES[j] == env.phase then 1.0 else 0.0)
      invariant forall k :: k in next ==> k.vec.RunPhase? && (next[k].val == 1.0 ==> k.identity == [env.phase])
    {
      var p := KNOWN_PHASES[i];
      next := AddPhase(env, next, p, if p == env.phase then 1.0 else 0.0);
    }
    if env.phase != "" && env.phase !in KNOWN_PHASES {
      next := AddPhase(env, next, env.phase, 1.0);
    }
  }

  lemma NoneLabelled(id: RunId)
    ensures Labelled(id, map[])
  {
  }

  method AddPhase(env: Envelope, samples: Samples, p: string, val: real) returns (next: Samples)
    requires Labelled(env.id, samples)
    ensures Labelled(env.id, next) && Has(next, PhaseSeries(env, p), val)
    ensures next.Keys == samples.Keys + {Key(RunPhase, [p])}
    ensures forall k :: k in samples && k != Key(RunPhase, [p]) ==> next[k] == samples[k]
    ensures next[Key(RunPhase, [p])].val == val
    ensures forall q, v :: q != p && Has(samples, PhaseSeries(env, q), v) ==> Has(next, PhaseSeries(env, q), v)
  {
    next := Add(samples, RunPhase, [env.id.namespace, env.id.name, env.profile, p], val);
  }

  /** The operator's own count, over the results and nothing else. */
  method CountPhases(results: seq<Report>) returns (counts: map<string, nat>)
    ensures forall p :: p in counts <==> exists i :: 0 <= i < |results| && results[i].phase == p
    ensures forall p :: p in counts ==> counts[p] == TallyOf(results, p)
  {
    counts := map[];
    for n := 0 to |results|
      invariant forall p :: p in counts <==> exists i :: 0 <= i < n && results[i].phase == p
      invariant forall p :: p in counts ==> counts[p] == |Upto(results, n, p)|
    {
      var p := results[n].phase;
      if p !in counts { assert Upto(results, n, p) == {}; }
      forall q ensures |Upto(results, n + 1, q)| == |Upto(results, n, q)| + (if p == q then 1 else 0) { UptoNext(results, n, q); }
      hide Upto;
      counts := counts[p := (if p in counts then counts[p] else 0) + 1];
    }
    forall p ensures TallyOf(results, p) == |Upto(results, |results|, p)| {}
  }

  /** Those among the first n results. */
  ghost function Upto(results: seq<Report>, n: nat, p: string): set<nat>
    requires n <= |results|
  {
    set i: nat | i < n && results[i].phase == p
  }

  lemma UptoNext(results: seq<Report>, n: nat, p: string)
    requires n < |results|
    ensures |Upto(results, n + 1, p)| == |Upto(results, n, p)| + (if results[n].phase == p then 1 else 0)
  {
    assert Upto(results, n + 1, p) == if results[n].phase == p then Upto(results, n, p) + {n} else Upto(results, n, p);
  }

  lemma TallyUnseen(results: seq<Report>, p: string)
    requires forall i :: 0 <= i < |results| ==> results[i].phase != p
    ensures TallyOf(results, p) == 0
  {
    assert (set i: nat | i < |results| && results[i].phase == p) == {};
  }

  /** The counts not yet published. */
  ghost predicate Uncounted(results: seq<Report>, done: set<string>, counts: map<string, nat>) {
    && (forall p :: p in counts <==> p !in done && exists i :: 0 <= i < |results| && results[i].phase == p)
    && (forall p :: p in counts ==> counts[p] == TallyOf(results, p))
  }

  lemma CountOf(results: seq<Report>, done: set<string>, counts: map<string, nat>, p: string)
    requires Uncounted(results, done, counts)
    ensures Uncounted(results, done + {p}, counts - {p})
    ensures p !in done ==> TallyOf(results, p) == if p in counts then counts[p] else 0
  {
    hide TallyOf;
    if p !in done && p !in counts { TallyUnseen(results, p); }
  }

  method TallySamples(env: Envelope, given: Samples) returns (next: Samples)
    requires Labelled(env.id, given) && forall k :: k in given ==> !k.vec.RunTests?
    ensures Labelled(env.id, next) && TalliesTold(env, next) && Extends(given, next, {RunTests})
  {
    hide TallyOf, Labelled, KeyOf, Tallied, TallyTold, Uncounted;
    KnownPhasesDiffer();
    next := given;
    var counts := CountPhases(env.results);
    ghost var done: set<string> := {};
    assert Uncounted(env.results, done, counts) by { AllUncounted(env.results, counts); }
    for i := 0 to |KNOWN_PHASES|
      invariant Labelled(env.id, next) && Extends(given, next, {RunTests}) && Uncounted(env.results, done, counts)
      invariant done == set j | 0 <= j < i :: KNOWN_PHASES[j]
      invariant forall p :: p in done ==> TallyTold(env, next, p)
      invariant forall k :: k in next && k.vec.RunTests? ==> Tallied(env, k)
    {
      var p := KNOWN_PHASES[i];
      CountOf(env.results, done, counts, p);
      next := AddTally(env, next, p, if p in counts then counts[p] else 0, given);
      TalliedIfKnown(env, i);
      counts, done := counts - {p}, done + {p};
    }
    while counts != map[]
      invariant Labelled(env.id, next) && Extends(given, next, {RunTests}) && Uncounted(env.results, done, counts)
      invariant forall j :: 0 <= j < |KNOWN_PHASES| ==> KNOWN_PHASES[j] in done
      invariant forall p :: p in done ==> TallyTold(env, next, p)
      invariant forall k :: k in next && k.vec.RunTests? ==> Tallied(env, k)
      decreases |counts|
    {
      var p :| p in counts;
      CountOf(env.results, done, counts, p);
      TalliedIfSeen(env, done, counts, p);
      next := AddTally(env, next, p, counts[p], given);
      counts, done := counts - {p}, done + {p};
    }
    AllCounted(env.results, done);
  }

  lemma AllUncounted(results: seq<Report>, counts: map<string, nat>)
    requires forall p :: p in counts <==> exists i :: 0 <= i < |results| && results[i].phase == p
    requires forall p :: p in counts ==> counts[p] == TallyOf(results, p)
    ensures Uncounted(results, {}, counts)
  {
  }

  lemma AllCounted(results: seq<Report>, done: set<string>)
    requires Uncounted(results, done, map[])
    ensures forall i :: 0 <= i < |results| ==> results[i].phase in done
  {
    var none: map<string, nat> := map[];
    forall i | 0 <= i < |results| ensures results[i].phase in done {
      assert results[i].phase !in none;
    }
  }

  lemma TalliedIfKnown(env: Envelope, i: nat)
    requires i < |KNOWN_PHASES|
    ensures Tallied(env, KeyOf(TallySeries(env, KNOWN_PHASES[i])))
  {
  }

  lemma TalliedIfSeen(env: Envelope, done: set<string>, counts: map<string, nat>, p: string)
    requires Uncounted(env.results, done, counts) && p in counts
    ensures p !in done && Tallied(env, KeyOf(TallySeries(env, p)))
  {
  }

  lemma KnownPhasesDiffer()
    ensures forall i, j :: 0 <= i < j < |KNOWN_PHASES| ==> KNOWN_PHASES[i] != KNOWN_PHASES[j]
  {
    assert KNOWN_PHASES[0][0] == 'P' && KNOWN_PHASES[2][0] == 'P' && KNOWN_PHASES[0][1] != KNOWN_PHASES[2][1];
  }

  method AddTally(env: Envelope, samples: Samples, p: string, n: nat, ghost given: Samples) returns (next: Samples)
    requires Labelled(env.id, samples) && Extends(given, samples, {RunTests}) && n == TallyOf(env.results, p)
    ensures Labelled(env.id, next) && Extends(given, next, {RunTests})
    ensures TallyTold(env, next, p)
    ensures forall q :: TallyTold(env, samples, q) ==> TallyTold(env, next, q)
    ensures forall k :: k in next ==> k in samples || k == KeyOf(TallySeries(env, p))
  {
    hide TallyOf;
    next := Add(samples, RunTests, [env.id.namespace, env.id.name, p], n as real);
  }

  /** The least of the starts there are. */
  predicate IsEarliest(results: seq<Report>, o: Option<int>) {
    && (o.Some? ==> exists i :: 0 <= i < |results| && results[i].startedAt == o)
    && (forall i :: 0 <= i < |results| && results[i].startedAt.Some? ==> o.Some? && o.value <= results[i].startedAt.value)
  }

  /** The greatest of the finishes there are. */
  predicate IsLatest(results: seq<Report>, o: Option<int>) {
    && (o.Some? ==> exists i :: 0 <= i < |results| && results[i].finishedAt == o)
    && (forall i :: 0 <= i < |results| && results[i].finishedAt.Some? ==> o.Some? && o.value >= results[i].finishedAt.value)
  }

  method EarliestStart(results: seq<Report>) returns (o: Option<int>)
    ensures IsEarliest(results, o)
  {
    o := None;
    for i := 0 to |results|
      invariant o.Some? ==> exists j :: 0 <= j < i && results[j].startedAt == o
      invariant forall j :: 0 <= j < i && results[j].startedAt.Some? ==> o.Some? && o.value <= results[j].startedAt.value
    {
      if results[i].startedAt.Some? && (o.None? || results[i].startedAt.value < o.value) {
        o := results[i].startedAt;
      }
    }
  }

  method LatestFinish(results: seq<Report>) returns (o: Option<int>)
    ensures IsLatest(results, o)
  {
    o := None;
    for i := 0 to |results|
      invariant o.Some? ==> exists j :: 0 <= j < i && results[j].finishedAt == o
      invariant forall j :: 0 <= j < i && results[j].finishedAt.Some? ==> o.Some? && o.value >= results[j].finishedAt.value
    {
      if results[i].finishedAt.Some? && (o.None? || results[i].finishedAt.value > o.value) {
        o := results[i].finishedAt;
      }
    }
  }

  function StartSeries(env: Envelope): Series {
    Series(RunStart, [env.id.namespace, env.id.name])
  }

  function FinishSeries(env: Envelope): Series {
    Series(RunFinish, [env.id.namespace, env.id.name])
  }

  /** A start once a test has started; a finish only once the run is over. */
  ghost predicate TimesTold(env: Envelope, samples: Samples) {
    && (forall o :: IsEarliest(env.results, o) ==>
          if o.Some? then Has(samples, StartSeries(env), o.value as real) else Key(RunStart, []) !in samples)
    && (forall o :: IsLatest(env.results, o) ==>
          if env.terminal && o.Some? then Has(samples, FinishSeries(env), o.value as real) else Key(RunFinish, []) !in samples)
  }

  method TimeSamples(env: Envelope, given: Samples) returns (next: Samples)
    requires Labelled(env.id, given) && Key(RunStart, []) !in given && Key(RunFinish, []) !in given
    ensures Labelled(env.id, next) && TimesTold(env, next) && Extends(given, next, {RunStart, RunFinish})
  {
    next := given;
    var start := EarliestStart(env.results);
    if start.Some? {
      next := Add(next, RunStart, [env.id.namespace, env.id.name], start.value as real);
    }
    var finish := LatestFinish(env.results);
    if env.terminal && finish.Some? {
      next := Add(next, RunFinish, [env.id.namespace, env.id.name], finish.value as real);
    }
  }

  // --- what each result says about its nodes

  function NodesOf(r: Report): seq<string> {
    if r.nodes == [] then [""] else r.nodes
  }

  /** The outcome of one test on one node. */
  function PhaseStatement(env: Envelope, r: Report, node: string): Sample {
    Sample(Series(TestPhase, [env.id.namespace, env.id.name, r.name, r.kind, r.scope, node, r.phase]), 1.0)
  }

  /** A registered numeric reading; it belongs to a node only when exactly one node produced it. */
  function MetricStatement(env: Envelope, r: Report, x: Reading): Sample
    requires x.known.Some? && x.val.Some?
  {
    var node := if |r.nodes| == 1 then r.nodes[0] else "";
    Sample(Series(TestMetric, [env.id.namespace, env.id.name, r.name, r.kind, r.scope, node, x.metric, x.known.value.0, x.known.value.1]),
           x.val.value)
  }

  function PhaseStatements(env: Envelope, r: Report, n: nat): seq<Sample>
    requires n <= |NodesOf(r)|
  {
    if n == 0 then [] else PhaseStatements(env, r, n - 1) + [PhaseStatement(env, r, NodesOf(r)[n - 1])]
  }

  function MetricStatements(env: Envelope, r: Report, n: nat): seq<Sample>
    requires n <= |r.metrics|
  {
    if n == 0 then []
    else
      var x := r.metrics[n - 1];
      MetricStatements(env, r, n - 1) + (if x.known.Some? && x.val.Some? then [MetricStatement(env, r, x)] else [])
  }

  /** Everything the first n results state, in order. */
  function Statements(env: Envelope, n: nat): seq<Sample>
    requires n <= |env.results|
  {
    if n == 0 then []
    else
      var r := env.results[n - 1];
      Statements(env, n - 1) + PhaseStatements(env, r, |NodesOf(r)|) + MetricStatements(env, r, |r.metrics|)
  }

  /** The last statement under j's identity. */
  predicate LastOfItsKind(st: seq<Sample>, j: nat) {
    j < |st| && forall i :: j < i < |st| ==> KeyOf(st[i].series) != KeyOf(st[j].series)
  }

  /** The test series filed are exactly the last statement under each identity. */
  predicate LastWins(samples: Samples, st: seq<Sample>) {
    && (forall k :: k in samples && (k.vec.TestPhase? || k.vec.TestMetric?) ==>
          exists j :: 0 <= j < |st| && LastOfItsKind(st, j) && KeyOf(st[j].series) == k && samples[k] == st[j])
    && (forall j :: 0 <= j < |st| ==> KeyOf(st[j].series) in samples)
  }

  predicate ResultsTold(env: Envelope, samples: Samples) {
    LastWins(samples, Statements(env, |env.results|))
  }

  lemma LastWinsAdd(samples: Samples, st: seq<Sample>, x: Sample)
    requires LastWins(samples, st)
    ensures LastWins(samples[KeyOf(x.series) := x], st + [x])
  {
    hide KeyOf;
    var next, st' := samples[KeyOf(x.series) := x], st + [x];
    forall k | k in next && (k.vec.TestPhase? || k.vec.TestMetric?)
      ensures exists j :: 0 <= j < |st'| && LastOfItsKind(st', j) && KeyOf(st'[j].series) == k && next[k] == st'[j]
    {
      if k == KeyOf(x.series) {
        assert st'[|st|] == x && LastOfItsKind(st', |st|);
      } else {
        var j :| 0 <= j < |st| && LastOfItsKind(st, j) && KeyOf(st[j].series) == k && samples[k] == st[j];
        assert st'[j] == st[j] && LastOfItsKind(st', j);
      }
    }
  }

  /** One phase series per node a result covered, and its registered numeric readings. */
  method ResultSamples(env: Envelope, given: Samples) returns (next: Samples)
    requires Labelled(env.id, given) && forall k :: k in given ==> !k.vec.TestPhase? && !k.vec.TestMetric?
    ensures Labelled(env.id, next) && ResultsTold(env, next) && Extends(given, next, {TestPhase, TestMetric})
  {
    next := given;
    for i := 0 to |env.results|
      invariant Labelled(env.id, next) && Extends(given, next, {TestPhase, TestMetric}) && LastWins(next, Statements(env, i))
    {
      next := OneResult(env, next, env.results[i], Statements(env, i), given);
      hide LastWins, Labelled, Extends;
    }
  }

  method OneResult(env: Envelope, samples: Samples, r: Report, ghost st: seq<Sample>, ghost given: Samples) returns (next: Samples)
    requires Labelled(env.id, samples) && Extends(given, samples, {TestPhase, TestMetric}) && LastWins(samples, st)
    ensures Labelled(env.id, next) && Extends(given, next, {TestPhase, TestMetric})
    ensures LastWins(next, st + PhaseStatements(env, r, |NodesOf(r)|) + MetricStatements(env, r, |r.metrics|))
  {
    hide Arity, KeyOf, Labelled, LastWins, Extends;
    next := samples;
    var nodes := NodesOf(r);
    assert st + [] == st;
    for n := 0 to |nodes|
      invariant Labelled(env.id, next) && Extends(given, next, {TestPhase, TestMetric})
      invariant LastWins(next, st + PhaseStatements(env, r, n))
    {
      ghost var told := st + PhaseStatements(env, r, n);
      next := FileStatement(env.id, next, PhaseStatement(env, r, nodes[n]), told, given);
      assert told + [PhaseStatement(env, r, nodes[n])] == st + PhaseStatements(env, r, n + 1);
    }
    ghost var phases := st + PhaseStatements(env, r, |nodes|);
    assert phases + [] == phases;
    for m := 0 to |r.metrics|
      invariant Labelled(env.id, next) && Extends(given, next, {TestPhase, TestMetric})
      invariant LastWins(next, phases + MetricStatements(env, r, m))
    {
      ghost var told := phases + MetricStatements(env, r, m);
      var x := r.metrics[m];
      if x.known.Some? && x.val.Some? {
        next := FileStatement(env.id, next, MetricStatement(env, r, x), told, given);
        assert told + [MetricStatement(env, r, x)] == phases + MetricStatements(env, r, m + 1);
      } else {
        assert told == phases + MetricStatements(env, r, m + 1);
      }
    }
  }

  method FileStatement(id: RunId, samples: Samples, x: Sample, ghost st: seq<Sample>, ghost given: Samples) returns (next: Samples)
    requires x.series.vec.TestPhase? || x.series.vec.TestMetric?
    requires |x.series.vals| == (if x.series.vec.TestPhase? then 7 else 9)
    requires x.series.vals[0] == id.namespace && x.series.vals[1] == id.name
    requires Labelled(id, samples) && Extends(given, samples, {TestPhase, TestMetric}) && LastWins(samples, st)
    ensures Labelled(id, next) && Extends(given, next, {TestPhase, TestMetric}) && LastWins(next, st + [x])
  {
    AddLabelled(id, samples, x.series.vec, x.series.vals, x.val);
    LastWinsAdd(samples, st, x);
    hide LastWins;
    next := Add(samples, x.series.vec, x.series.vals, x.val);
  }

  /** Everything one delivery says. */
  ghost predicate AllTold(env: Envelope, samples: Samples) {
    && Labelled(env.id, samples)
    && PhaseTold(env, samples) && TalliesTold(env, samples) && TimesTold(env, samples) && ResultsTold(env, samples)
  }

  /** Everything one delivery publishes. */
  method SamplesOf(env: Envelope) returns (next: Samples)
    ensures AllTold(env, next)
  {
    hide TallyOf, Labelled, KeyOf, PhaseTold, TalliesTold, TimesTold, ResultsTold, Extends;
    var phases := RunPhaseSamples(env);
    var tallies := TallySamples(env, phases);
    KeepsPhase(env, phases, tallies, {RunTests});
    NewKeys(phases, tallies);
    var times := TimeSamples(env, tallies);
    KeepsPhase(env, tallies, times, {RunStart, RunFinish});
    KeepsTallies(env, tallies, times, {RunStart, RunFinish});
    NoTestKeys(phases, tallies, times);
    next := ResultSamples(env, times);
    KeepsPhase(env, times, next, {TestPhase, TestMetric});
    KeepsTallies(env, times, next, {TestPhase, TestMetric});
    KeepsTimes(env, times, next);
  }

  // --- the same, as labels and values

  /** The sample files this series with this value. */
  ghost predicate Filed(samples: Samples, vec: Vec, vals: seq<string>, val: real) {
    exists k :: k in samples && samples[k] == Sample(Series(vec, vals), val)
  }

  /** The series about the run itself: its phase, its tallies, its times. */
  lemma RunIsFiled(env: Envelope, samples: Samples)
    requires AllTold(env, samples)
    ensures forall p :: p in ["Pending", "Running", "Passed", "Failed", "Error", "Skipped", "Cancelled", env.phase] && p != "" ==>
              Filed(samples, RunPhase, [env.id.namespace, env.id.name, env.profile, p], if p == env.phase then 1.0 else 0.0)
    ensures forall p :: (p in ["Pending", "Running", "Passed", "Failed", "Error", "Skipped", "Cancelled"]
                         || exists i :: 0 <= i < |env.results| && env.results[i].phase == p) ==>
              Filed(samples, RunTests, [env.id.namespace, env.id.name, p], |set i: nat | i < |env.results| && env.results[i].phase == p| as real)
    ensures forall i :: 0 <= i < |env.results| && env.results[i].startedAt.Some?
                        && (forall j :: 0 <= j < |env.results| && env.results[j].startedAt.Some? ==>
                              env.results[i].startedAt.value <= env.results[j].startedAt.value) ==>
              Filed(samples, RunStart, [env.id.namespace, env.id.name], env.results[i].startedAt.value as real)
    ensures forall i :: env.terminal && 0 <= i < |env.results| && env.results[i].finishedAt.Some?
                        && (forall j :: 0 <= j < |env.results| && env.results[j].finishedAt.Some? ==>
                              env.results[i].finishedAt.value >= env.results[j].finishedAt.value) ==>
              Filed(samples, RunFinish, [env.id.namespace, env.id.name], env.results[i].finishedAt.value as real)
  {
    forall p | p in ["Pending", "Running", "Passed", "Failed", "Error", "Skipped", "Cancelled", env.phase] && p != ""
      ensures Filed(samples, RunPhase, [env.id.namespace, env.id.name, env.profile, p], if p == env.phase then 1.0 else 0.0)
    {
      PhaseIsFiled(env, samples, p);
    }
    forall p | p in KNOWN_PHASES || exists i :: 0 <= i < |env.results| && env.results[i].phase == p
      ensures Filed(samples, RunTests, [env.id.namespace, env.id.name, p], |set i: nat | i < |env.results| && env.results[i].phase == p| as real)
    {
      TallyIsFiled(env, samples, p);
    }
    forall i | 0 <= i < |env.results| && env.results[i].startedAt.Some?
               && (forall j :: 0 <= j < |env.results| && env.results[j].startedAt.Some? ==>
                     env.results[i].startedAt.value <= env.results[j].startedAt.value)
      ensures Filed(samples, RunStart, [env.id.namespace, env.id.name], env.results[i].startedAt.value as real)
    {
      assert IsEarliest(env.results, env.results[i].startedAt);
    }
    forall i | env.terminal && 0 <= i < |env.results| && env.results[i].finishedAt.Some?
               && (forall j :: 0 <= j < |env.results| && env.results[j].finishedAt.Some? ==>
                     env.results[i].finishedAt.value >= env.results[j].finishedAt.value)
      ensures Filed(samples, RunFinish, [env.id.namespace, env.id.name], env.results[i].finishedAt.value as real)
    {
      assert IsLatest(env.results, env.results[i].finishedAt);
    }
  }

  lemma PhaseIsFiled(env: Envelope, samples: Samples, p: string)
    requires PhaseTold(env, samples) && (p in KNOWN_PHASES || p == env.phase) && p != ""
    ensures Filed(samples, RunPhase, [env.id.namespace, env.id.name, env.profile, p], if p == env.phase then 1.0 else 0.0)
  {
    if p in KNOWN_PHASES {
      var i :| 0 <= i < |KNOWN_PHASES| && KNOWN_PHASES[i] == p;
      assert Has(samples, PhaseSeries(env, KNOWN_PHASES[i]), if p == env.phase then 1.0 else 0.0);
    }
  }

  lemma TallyIsFiled(env: Envelope, samples: Samples, p: string)
    requires TalliesTold(env, samples) && (p in KNOWN_PHASES || exists i :: 0 <= i < |env.results| && env.results[i].phase == p)
    ensures Filed(samples, RunTests, [env.id.namespace, env.id.name, p], |set i: nat | i < |env.results| && env.results[i].phase == p| as real)
  {
    if p in KNOWN_PHASES {
      var i :| 0 <= i < |KNOWN_PHASES| && KNOWN_PHASES[i] == p;
      assert TallyTold(env, samples, KNOWN_PHASES[i]);
    } else {
      var i :| 0 <= i < |env.results| && env.results[i].phase == p;
      assert TallyTold(env, samples, env.results[i].phase);
    }
  }

  /** Of the statements under its identity, this is the last. */
  ghost predicate LastIs(st: seq<Sample>, x: Sample) {
    exists j :: 0 <= j < |st| && LastOfItsKind(st, j) && st[j] == x
  }

  lemma LastIsStill(st: seq<Sample>, more: seq<Sample>, x: Sample)
    requires LastIs(st, x) && forall i :: 0 <= i < |more| ==> KeyOf(more[i].series) != KeyOf(x.series)
    ensures LastIs(st + more, x)
  {
    hide KeyOf;
    var j :| 0 <= j < |st| && LastOfItsKind(st, j) && st[j] == x;
    assert LastOfItsKind(st + more, j);
  }

  lemma {:induction false} LastIsHere(st: seq<Sample>, more: seq<Sample>, x: Sample)
    requires x in more && forall i :: 0 <= i < |more| && KeyOf(more[i].series) == KeyOf(x.series) ==> more[i] == x
    ensures LastIs(st + more, x)
    decreases |more|
  {
    hide KeyOf;
    var n := |more| - 1;
    assert st + more == (st + more[..n]) + [more[n]];
    if more[n] == x {
      assert LastOfItsKind(st + more, |st| + n);
    } else {
      LastIsHere(st, more[..n], x);
      LastIsStill(st + more[..n], [more[n]], x);
    }
  }

  lemma LastIsFiled(samples: Samples, st: seq<Sample>, x: Sample)
    requires LastWins(samples, st) && LastIs(st, x) && (x.series.vec.TestPhase? || x.series.vec.TestMetric?)
    requires KeyOf(x.series).vec == x.series.vec
    ensures KeyOf(x.series) in samples && samples[KeyOf(x.series)] == x
  {
    hide KeyOf;
    var j :| 0 <= j < |st| && LastOfItsKind(st, j) && st[j] == x;
    var k := KeyOf(x.series);
    assert k in samples;
    var i :| 0 <= i < |st| && LastOfItsKind(st, i) && KeyOf(st[i].series) == k && samples[k] == st[i];
    assert i == j;
  }

  /** What one more result adds. */
  function Added(env: Envelope, r: Report): seq<Sample> {
    PhaseStatements(env, r, |NodesOf(r)|) + MetricStatements(env, r, |r.metrics|)
  }

  lemma {:induction false} PhasesAre(env: Envelope, r: Report, n: nat)
    requires n <= |NodesOf(r)|
    ensures |PhaseStatements(env, r, n)| == n
    ensures forall i :: 0 <= i < n ==> PhaseStatements(env, r, n)[i] == PhaseStatement(env, r, NodesOf(r)[i])
  {
    if n > 0 { PhasesAre(env, r, n - 1); }
  }

  lemma {:induction false} MetricsAre(env: Envelope, r: Report, n: nat)
    requires n <= |r.metrics|
    ensures forall y :: y in MetricStatements(env, r, n) ==> FromReading(env, r, y)
  {
    if n > 0 {
      MetricsAre(env, r, n - 1);
      var x := r.metrics[n - 1];
      if x.known.Some? && x.val.Some? { assert FromReading(env, r, MetricStatement(env, r, x)); }
    }
  }

  predicate FromReading(env: Envelope, r: Report, y: Sample) {
    exists m :: 0 <= m < |r.metrics| && r.metrics[m].known.Some? && r.metrics[m].val.Some? && y == MetricStatement(env, r, r.metrics[m])
  }

  /** Results after the i-th that say nothing under this identity leave it the last. */
  lemma {:induction false} StaysLast(env: Envelope, i: nat, n: nat, x: Sample)
    requires i < n <= |env.results| && LastIs(Statements(env, i + 1), x)
    requires forall m :: i < m < n ==> forall y :: y in Added(env, env.results[m]) ==> KeyOf(y.series) != KeyOf(x.series)
    ensures LastIs(Statements(env, n), x)
    decreases n
  {
    hide KeyOf, LastIs, Statements, Added;
    if n > i + 1 {
      StaysLast(env, i, n - 1, x);
      var more := Added(env, env.results[n - 1]);
      assert forall k :: 0 <= k < |more| ==> more[k] in more;
      LastIsStill(Statements(env, n - 1), more, x);
      StatementsNext(env, n - 1);
    }
  }

  lemma StatementsNext(env: Envelope, n: nat)
    requires n < |env.results|
    ensures Statements(env, n + 1) == Statements(env, n) + Added(env, env.results[n])
  {
    hide PhaseStatements, MetricStatements;
  }

  /**
    The outcome of a test on a node, as published: the phase of the last result that covers
    that node under that name, on its own labels, with the value one. A result without nodes
    covers the empty one.
  */
  lemma LastPhaseIsFiled(env: Envelope, samples: Samples, i: nat, node: string)
    requires AllTold(env, samples) && i < |env.results|
    requires node in env.results[i].nodes || (env.results[i].nodes == [] && node == "")
    requires forall j :: i < j < |env.results| && env.results[j].name == env.results[i].name ==>
               node !in env.results[j].nodes && !(env.results[j].nodes == [] && node == "")
    ensures var r := env.results[i];
            Filed(samples, TestPhase, [env.id.namespace, env.id.name, r.name, r.kind, r.scope, node, r.phase], 1.0)
  {
    var r := env.results[i];
    var x := PhaseStatement(env, r, node);
    assert KeyOf(x.series) == Key(TestPhase, [r.name, node]);
    PhaseStated(env, i, node);
    hide KeyOf, LastIs, Added, Statements, PhaseTold, TalliesTold, TimesTold, LastWins, Labelled;
    forall m | i < m < |env.results| ensures forall y :: y in Added(env, env.results[m]) ==> KeyOf(y.series) != KeyOf(x.series) {
      SaysNoPhase(env, env.results[m], x, node, r.name);
    }
    StaysLast(env, i, |env.results|, x);
    LastIsFiled(samples, Statements(env, |env.results|), x);
  }

  lemma PhaseStated(env: Envelope, i: nat, node: string)
    requires i < |env.results| && node in NodesOf(env.results[i])
    ensures LastIs(Statements(env, i + 1), PhaseStatement(env, env.results[i], node))
  {
    hide LastIs;
    var r := env.results[i];
    var x := PhaseStatement(env, r, node);
    var here, there := PhaseStatements(env, r, |NodesOf(r)|), MetricStatements(env, r, |r.metrics|);
    PhasesAre(env, r, |NodesOf(r)|);
    var at :| 0 <= at < |NodesOf(r)| && NodesOf(r)[at] == node;
    assert here[at] == x;
    hide NodesOf;
    assert forall k :: 0 <= k < |here| && KeyOf(here[k].series) == KeyOf(x.series) ==> here[k] == x by { SameNodeSays(env, r, node); }
    MetricsAre(env, r, |r.metrics|);
    forall k | 0 <= k < |there| ensures KeyOf(there[k].series) != KeyOf(x.series) { assert FromReading(env, r, there[k]); }
    hide KeyOf, PhaseStatements, MetricStatements, PhaseStatement;
    LastIsHere(Statements(env, i), here, x);
    LastIsStill(Statements(env, i) + here, there, x);
    assert Statements(env, i + 1) == Statements(env, i) + here + there;
  }

  lemma SameNodeSays(env: Envelope, r: Report, node: string)
    ensures forall other :: KeyOf(PhaseStatement(env, r, other).series) == KeyOf(PhaseStatement(env, r, node).series) ==> other == node
  {
    forall other | KeyOf(PhaseStatement(env, r, other).series) == KeyOf(PhaseStatement(env, r, node).series) ensures other == node {
      assert [r.name, other][1] == other && [r.name, node][1] == node;
    }
  }

  lemma SaysNoPhase(env: Envelope, r: Report, x: Sample, node: string, name: string)
    requires KeyOf(x.series) == Key(TestPhase, [name, node]) && (r.name == name ==> node !in NodesOf(r))
    ensures forall y :: y in Added(env, r) ==> KeyOf(y.series) != KeyOf(x.series)
  {
    PhasesAre(env, r, |NodesOf(r)|);
    MetricsAre(env, r, |r.metrics|);
    assert forall k :: 0 <= k < |NodesOf(r)| ==> NodesOf(r)[k] in NodesOf(r);
    forall k | 0 <= k < |NodesOf(r)| ensures KeyOf(PhaseStatement(env, r, NodesOf(r)[k]).series) != KeyOf(x.series) {
      assert [r.name, NodesOf(r)[k]][0] == r.name && [name, node][0] == name;
      assert [r.name, NodesOf(r)[k]][1] == NodesOf(r)[k] && [name, node][1] == node;
    }
  }

  /** The node a result's readings are published under: its only one, or none. */
  function Sole(nodes: seq<string>): string {
    if |nodes| == 1 then nodes[0] else ""
  }

  /**
    A reading as published: a registered number, the last one under its test, node and name,
    under its node only if the result covers exactly one.
  */
  lemma LastReadingIsFiled(env: Envelope, samples: Samples, i: nat, a: nat)
    requires AllTold(env, samples) && i < |env.results| && a < |env.results[i].metrics|
    requires env.results[i].metrics[a].known.Some? && env.results[i].metrics[a].val.Some?
    requires forall b :: a < b < |env.results[i].metrics| ==> env.results[i].metrics[b].metric != env.results[i].metrics[a].metric
    requires forall j, b :: i < j < |env.results| && 0 <= b < |env.results[j].metrics| && env.results[j].name == env.results[i].name
                            && Sole(env.results[j].nodes) == Sole(env.results[i].nodes) ==>
               env.results[j].metrics[b].metric != env.results[i].metrics[a].metric
    ensures var r := env.results[i];
            var m := r.metrics[a];
            Filed(samples, TestMetric, [env.id.namespace, env.id.name, r.name, r.kind, r.scope, if |r.nodes| == 1 then r.nodes[0] else "",
                                        m.metric, m.known.value.0, m.known.value.1], m.val.value)
  {
    var r := env.results[i];
    var x := MetricStatement(env, r, r.metrics[a]);
    assert KeyOf(x.series) == Key(TestMetric, [r.name, Sole(r.nodes), r.metrics[a].metric]);
    ReadingStated(env, i, a);
    hide KeyOf, LastIs, Added, Statements, PhaseTold, TalliesTold, TimesTold, LastWins, Labelled;
    forall m | i < m < |env.results| ensures forall y :: y in Added(env, env.results[m]) ==> KeyOf(y.series) != KeyOf(x.series) {
      SaysNoReading(env, env.results[m], x, r.name, Sole(r.nodes), r.metrics[a].metric);
    }
    StaysLast(env, i, |env.results|, x);
    LastIsFiled(samples, Statements(env, |env.results|), x);
  }

  lemma ReadingStated(env: Envelope, i: nat, a: nat)
    requires i < |env.results| && a < |env.results[i].metrics|
    requires env.results[i].metrics[a].known.Some? && env.results[i].metrics[a].val.Some?
    requires forall b :: a < b < |env.results[i].metrics| ==> env.results[i].metrics[b].metric != env.results[i].metrics[a].metric
    ensures LastIs(Statements(env, i + 1), MetricStatement(env, env.results[i], env.results[i].metrics[a]))
  {
    var r := env.results[i];
    var x := MetricStatement(env, r, r.metrics[a]);
    var before := Statements(env, i) + PhaseStatements(env, r, |NodesOf(r)|);
    assert KeyOf(x.series) == Key(TestMetric, [r.name, Sole(r.nodes), r.metrics[a].metric]);
    hide KeyOf, LastIs;
    assert MetricStatements(env, r, a + 1) == MetricStatements(env, r, a) + [x];
    LastIsHere(before + MetricStatements(env, r, a), [x], x);
    assert before + MetricStatements(env, r, a + 1) == (before + MetricStatements(env, r, a)) + [x];
    LaterReadings(env, r, before, a, |r.metrics|, x);
    assert Statements(env, i + 1) == before + MetricStatements(env, r, |r.metrics|);
  }

  lemma {:induction false} LaterReadings(env: Envelope, r: Report, before: seq<Sample>, a: nat, n: nat, x: Sample)
    requires a < n <= |r.metrics| && LastIs(before + MetricStatements(env, r, a + 1), x)
    requires KeyOf(x.series) == Key(TestMetric, [r.name, Sole(r.nodes), r.metrics[a].metric])
    requires forall b :: a < b < n ==> r.metrics[b].metric != r.metrics[a].metric
    ensures LastIs(before + MetricStatements(env, r, n), x)
    decreases n
  {
    if n > a + 1 {
      LaterReadings(env, r, before, a, n - 1, x);
      var m := r.metrics[n - 1];
      if m.known.Some? && m.val.Some? {
        assert [r.name, Sole(r.nodes), m.metric][2] == m.metric && [r.name, Sole(r.nodes), r.metrics[a].metric][2] == r.metrics[a].metric;
        LastIsStill(before + MetricStatements(env, r, n - 1), [MetricStatement(env, r, m)], x);
        assert before + MetricStatements(env, r, n) == before + MetricStatements(env, r, n - 1) + [MetricStatement(env, r, m)];
      } else {
        assert MetricStatements(env, r, n) == MetricStatements(env, r, n - 1);
      }
    }
  }

  lemma SaysNoReading(env: Envelope, r: Report, x: Sample, name: string, node: string, metric: string)
    requires KeyOf(x.series) == Key(TestMetric, [name, node, metric])
    requires r.name == name && Sole(r.nodes) == node ==> forall b :: 0 <= b < |r.metrics| ==> r.metrics[b].metric != metric
    ensures forall y :: y in Added(env, r) ==> KeyOf(y.series) != KeyOf(x.series)
  {
    PhasesAre(env, r, |NodesOf(r)|);
    MetricsAre(env, r, |r.metrics|);
    forall b | 0 <= b < |r.metrics| && r.metrics[b].known.Some? && r.metrics[b].val.Some?
      ensures KeyOf(MetricStatement(env, r, r.metrics[b]).series) != KeyOf(x.series)
    {
      var mine := [r.name, Sole(r.nodes), r.metrics[b].metric];
      assert KeyOf(MetricStatement(env, r, r.metrics[b]).series) == Key(TestMetric, mine);
      assert mine[0] == r.name && mine[1] == Sole(r.nodes) && mine[2] == r.metrics[b].metric;
      assert [name, node, metric][0] == name && [name, node, metric][1] == node && [name, node, metric][2] == metric;
    }
  }

  /** This result says so of one of its nodes, or by one of its registered numbers. */
  predicate StatedBy(env: Envelope, r: Report, y: Sample) {
    || FromReading(env, r, y)
    || (exists k :: 0 <= k < |NodesOf(r)| && y == PhaseStatement(env, r, NodesOf(r)[k]))
  }

  lemma {:induction false} AllStated(env: Envelope, n: nat)
    requires n <= |env.results|
    ensures forall y :: y in Statements(env, n) ==> exists i :: 0 <= i < n && StatedBy(env, env.results[i], y)
  {
    if n > 0 {
      var r := env.results[n - 1];
      AllStated(env, n - 1);
      StatementsNext(env, n - 1);
      PhasesAre(env, r, |NodesOf(r)|);
      MetricsAre(env, r, |r.metrics|);
      forall y | y in Added(env, r) ensures StatedBy(env, r, y) {
        hide Statements;
        if y in PhaseStatements(env, r, |NodesOf(r)|) {
          var k :| 0 <= k < |NodesOf(r)| && PhaseStatements(env, r, |NodesOf(r)|)[k] == y;
        }
      }
      hide Statements, Added, StatedBy, PhaseStatements, MetricStatements;
    }
  }

  /** A registered number, on its own labels. */
  ghost predicate Registered(id: RunId, r: Report, m: Reading, x: Sample) {
    && m.known.Some? && m.val.Some?
    && x == Sample(Series(TestMetric, [id.namespace, id.name, r.name, r.kind, r.scope, if |r.nodes| == 1 then r.nodes[0] else "",
                                       m.metric, m.known.value.0, m.known.value.1]), m.val.value)
  }

  /** Nothing else is published about a test: every phase series is a result's on one of its nodes, every metric series a registered number. */
  lemma NothingElseIsFiled(env: Envelope, samples: Samples, k: Key)
    requires AllTold(env, samples) && k in samples
    ensures k.vec.TestPhase? ==>
      exists i, node :: 0 <= i < |env.results| && (node in env.results[i].nodes || (env.results[i].nodes == [] && node == ""))
        && var r := env.results[i];
           samples[k] == Sample(Series(TestPhase, [env.id.namespace, env.id.name, r.name, r.kind, r.scope, node, r.phase]), 1.0)
    ensures k.vec.TestMetric? ==>
      exists i, a :: 0 <= i < |env.results| && 0 <= a < |env.results[i].metrics| && Registered(env.id, env.results[i], env.results[i].metrics[a], samples[k])
  {
    hide PhaseTold, TalliesTold, TimesTold;
    if k.vec.TestPhase? || k.vec.TestMetric? {
      var st := Statements(env, |env.results|);
      var j :| 0 <= j < |st| && LastOfItsKind(st, j) && KeyOf(st[j].series) == k && samples[k] == st[j];
      AllStated(env, |env.results|);
      assert samples[k] in st;
      hide Statements, LastWins, Labelled;
      var i :| 0 <= i < |env.results| && StatedBy(env, env.results[i], samples[k]);
      assert KeyOf(samples[k].series) == k;
      if FromReading(env, env.results[i], samples[k]) {
        var a :| 0 <= a < |env.results[i].metrics| && env.results[i].metrics[a].known.Some? && env.results[i].metrics[a].val.Some?
                 && samples[k] == MetricStatement(env, env.results[i], env.results[i].metrics[a]);
        assert Registered(env.id, env.results[i], env.results[i].metrics[a], samples[k]);
      } else {
        var n :| 0 <= n < |NodesOf(env.results[i])| && samples[k] == PhaseStatement(env, env.results[i], NodesOf(env.results[i])[n]);
        assert NodesOf(env.results[i])[n] in NodesOf(env.results[i]);
      }
    }
  }

  lemma NoTestKeys(phases: Samples, tallies: Samples, times: Samples)
    requires Extends(phases, tallies, {RunTests}) && Extends(tallies, times, {RunStart, RunFinish})
    requires forall k :: k in phases ==> k.vec.RunPhase?
    ensures forall k :: k in times ==> !k.vec.TestPhase? && !k.vec.TestMetric?
  {
  }

  lemma NewKeys(phases: Samples, tallies: Samples)
    requires Extends(phases, tallies, {RunTests}) && forall k :: k in phases ==> k.vec.RunPhase?
    ensures Key(RunStart, []) !in tallies && Key(RunFinish, []) !in tallies
  {
  }

  lemma KeepsPhase(env: Envelope, given: Samples, next: Samples, vecs: set<Vec>)
    requires PhaseTold(env, given) && Extends(given, next, vecs) && RunPhase !in vecs
    ensures PhaseTold(env, next)
  {
  }

  lemma KeepsTallies(env: Envelope, given: Samples, next: Samples, vecs: set<Vec>)
    requires TalliesTold(env, given) && Extends(given, next, vecs) && RunTests !in vecs
    ensures TalliesTold(env, next)
  {
    hide TallyOf;
  }

  lemma KeepsTimes(env: Envelope, given: Samples, next: Samples)
    requires TimesTold(env, given) && Extends(given, next, {TestPhase, TestMetric})
    ensures TimesTold(env, next)
  {
    hide IsEarliest, IsLatest;
  }

  // ---------------------------------------------------------------- what is published

  datatype RunState = RunState(lastSeen: int, samples: Samples)

  /** What the runs on file say about a series. */
  function Claimed(runs: map<RunId, RunState>, s: Series): Option<real> {
    var id := OwnerOf(s);
    if id in runs && Told(runs[id].samples, s) then Some(runs[id].samples[KeyOf(s)].val) else None
  }

  predicate Told(samples: Samples, s: Series) {
    KeyOf(s) in samples && samples[KeyOf(s)].series == s
  }

  ghost predicate AllLabelled(runs: map<RunId, RunState>) {
    forall id :: id in runs ==> Labelled(id, runs[id].samples)
  }

  /** The gauges are exactly what the runs on file last reported. */
  ghost predicate Exact(gauges: map<Series, real>, runs: map<RunId, RunState>) {
    forall s :: (s in gauges <==> Claimed(runs, s).Some?) && (s in gauges ==> Some(gauges[s]) == Claimed(runs, s))
  }

  /** The union is disjoint: a published series is one run's, under one identity. */
  lemma OneClaimant(runs: map<RunId, RunState>, s: Series, a: RunId, j: Key, b: RunId, k: Key)
    requires AllLabelled(runs)
    requires a in runs && j in runs[a].samples && runs[a].samples[j].series == s
    requires b in runs && k in runs[b].samples && runs[b].samples[k].series == s
    ensures a == b && j == k
  {
    assert Labelled(a, runs[a].samples) && Labelled(b, runs[b].samples);
  }

  /**
    A test never reads as being in two phases on one node: no two published phase series
    share run, test and node.
  */
  lemma OnePhasePerTestAndNode(gauges: map<Series, real>, runs: map<RunId, RunState>, s: Series, t: Series)
    requires AllLabelled(runs) && Exact(gauges, runs) && s in gauges && t in gauges && s.vec.TestPhase? && t.vec.TestPhase?
    requires |s.vals| == 7 && |t.vals| == 7
    requires s.vals[0] == t.vals[0] && s.vals[1] == t.vals[1] && s.vals[2] == t.vals[2] && s.vals[5] == t.vals[5]
    ensures s == t
  {
    assert Claimed(runs, s).Some? && Claimed(runs, t).Some?;
    assert KeyOf(s) == KeyOf(t) && OwnerOf(s) == OwnerOf(t);
  }

  /** What eviction leaves: the most recently seen runs, as many as the limit allows, each as it was. */
  ghost predicate Trimmed(before: map<RunId, RunState>, after: map<RunId, RunState>, limit: int) {
    && after.Keys <= before.Keys && (forall id :: id in after ==> after[id] == before[id])
    && (forall kept, gone :: kept in after && gone in before && gone !in after ==> before[gone].lastSeen <= after[kept].lastSeen)
    && |after| == if |before| <= limit then |before| else limit
  }

  /** Within the limit nothing is evicted. */
  lemma NoneTrimmed(before: map<RunId, RunState>, after: map<RunId, RunState>, limit: int)
    requires Trimmed(before, after, limit) && |before| <= limit
    ensures after == before
  {
    if exists id :: id in before && id !in after {
      var id :| id in before && id !in after;
      assert |after.Keys + {id}| == |after.Keys| + 1;
      SubsetSize(after.Keys + {id}, before.Keys);
    }
  }

  /** The only run seen later than every other survives any limit of at least one. */
  lemma NewestSurvives(before: map<RunId, RunState>, after: map<RunId, RunState>, limit: int, id: RunId)
    requires Trimmed(before, after, limit) && limit >= 1 && id in before
    requires forall other :: other in before && other != id ==> before[other].lastSeen < before[id].lastSeen
    ensures id in after
  {
    assert before.Keys - {id} + {id} == before.Keys;
    var some :| some in after;
    assert some == id || before[some].lastSeen < before[id].lastSeen;
  }

  /** Every sample of every run on file is published with its value, and nothing else is. */
  lemma ExactMeans(gauges: map<Series, real>, runs: map<RunId, RunState>)
    requires AllLabelled(runs) && Exact(gauges, runs)
    ensures forall id, k :: id in runs && k in runs[id].samples ==>
      var x := runs[id].samples[k]; x.series in gauges && gauges[x.series] == x.val
    ensures forall s :: s in gauges ==> exists id, k :: id in runs && k in runs[id].samples && runs[id].samples[k].series == s
  {
    forall id, k | id in runs && k in runs[id].samples
      ensures var x := runs[id].samples[k]; x.series in gauges && gauges[x.series] == x.val
    {
      assert Labelled(id, runs[id].samples);
      var x := runs[id].samples[k];
      assert Claimed(runs, x.series) == Some(x.val);
    }
    forall s | s in gauges ensures exists id, k :: id in runs && k in runs[id].samples && runs[id].samples[k].series == s {
      assert Claimed(runs, s).Some?;
      assert runs[OwnerOf(s)].samples[KeyOf(s)].series == s;
    }
  }

  /** The gauges with every sample of a run written. */
  method Write(gauges: map<Series, real>, id: RunId, next: Samples) returns (g: map<Series, real>)
    requires Labelled(id, next)
    ensures forall s :: s in g <==> s in gauges || Told(next, s)
    ensures forall s :: s in g ==> g[s] == if Told(next, s) then next[KeyOf(s)].val else gauges[s]
  {
    g := gauges;
    var todo := next.Keys;
    while todo != {}
      invariant todo <= next.Keys
      invariant forall s :: s in g <==> s in gauges || (Told(next, s) && KeyOf(s) !in todo)
      invariant forall s :: s in g ==> g[s] == if Told(next, s) && KeyOf(s) !in todo then next[KeyOf(s)].val else gauges[s]
      decreases todo
    {
      var k :| k in todo;
      g := g[next[k].series := next[k].val];
      todo := todo - {k};
    }
  }

  /** A series the run published before and does not publish now. */
  predicate Stale(prev: Samples, next: Samples, s: Series) {
    Told(prev, s) && !Told(next, s)
  }

  method RemoveStale(gauges: map<Series, real>, id: RunId, prev: Samples, next: Samples) returns (g: map<Series, real>)
    requires Labelled(id, prev) && Labelled(id, next)
    ensures forall s :: s in g <==> s in gauges && !Stale(prev, next, s)
    ensures forall s :: s in g ==> g[s] == gauges[s]
  {
    g := gauges;
    var todo := prev.Keys;
    while todo != {}
      invariant todo <= prev.Keys
      invariant forall s :: s in g <==> s in gauges && !(Stale(prev, next, s) && KeyOf(s) !in todo)
      invariant forall s :: s in g ==> g[s] == gauges[s]
      decreases todo
    {
      var k :| k in todo;
      if k !in next || next[k].series != prev[k].series {
        g := g - {prev[k].series};
      }
      todo := todo - {k};
    }
  }

  /** The gauges without a run's series. */
  method Unpublish(gauges: map<Series, real>, runs: map<RunId, RunState>, id: RunId) returns (g: map<Series, real>)
    requires AllLabelled(runs) && Exact(gauges, runs) && id in runs
    ensures Exact(g, runs - {id})
  {
    var empty: Samples := map[];
    g := RemoveStale(gauges, id, runs[id].samples, empty);
    forall s ensures Claimed(runs - {id}, s) == if OwnerOf(s) == id then None else Claimed(runs, s) {}
    forall s | Told(runs[id].samples, s) ensures OwnerOf(s) == id {
      assert Labelled(id, runs[id].samples);
    }
  }

  /** A sweep in progress: the runs visited and not alive are gone. */
  ghost predicate Halfway(all: set<RunId>, todo: set<RunId>, live: set<RunId>, gone: set<RunId>) {
    todo <= all && gone == (all - todo) - live
  }

  lemma HalfwayStep(all: set<RunId>, todo: set<RunId>, live: set<RunId>, gone: set<RunId>, id: RunId)
    requires Halfway(all, todo, live, gone) && id in todo
    ensures id !in gone && Halfway(all, todo - {id}, live, if id in live then gone else gone + {id})
  {
  }

  lemma WithoutTwice(runs: map<RunId, RunState>, a: set<RunId>, b: set<RunId>)
    ensures (runs - a) - b == runs - (a + b)
  {
  }

  lemma FewerRuns(runs: map<RunId, RunState>, gone: set<RunId>)
    ensures |runs - gone| <= |runs|
  {
    SubsetSize((runs - gone).Keys, runs.Keys);
  }

  /** The least recently observed run. */
  method Oldest(runs: map<RunId, RunState>) returns (oldest: RunId)
    requires runs != map[]
    ensures oldest in runs && forall id :: id in runs ==> runs[oldest].lastSeen <= runs[id].lastSeen
  {
    oldest :| oldest in runs;
    var todo := runs.Keys - {oldest};
    while todo != {}
      invariant todo <= runs.Keys && oldest in runs
      invariant forall id :: id in runs && id !in todo ==> runs[oldest].lastSeen <= runs[id].lastSeen
      decreases todo
    {
      var id :| id in todo;
      if runs[id].lastSeen < runs[oldest].lastSeen {
        oldest := id;
      }
      todo := todo - {id};
    }
  }

  class Exporter {
    var runs: map<RunId, RunState>
    var gauges: map<Series, real>
    var maxRuns: int
    var evicted: nat

    /** Gauges and runs agree; only eviction brings the number of runs back to its limit. */
    ghost predicate Consistent()
      reads this
    {
      maxRuns >= 1 && AllLabelled(runs) && Exact(gauges, runs)
    }

    ghost predicate Valid()
      reads this
    {
      Consistent() && |runs| <= maxRuns
    }

    constructor ()
      ensures Valid() && runs == map[] && gauges == map[] && maxRuns == 128
    {
      runs, gauges, maxRuns, evicted := map[], map[], 128, 0;
    }

    /** forgetLocked: a run goes with every series it published. */
    method ForgetRun(id: RunId)
      requires Consistent()
      modifies this`runs, this`gauges
      ensures Consistent()
      ensures runs == old(runs) - {id}
    {
      if id !in runs {
        return;
      }
      gauges := Unpublish(gauges, runs, id);
      runs := runs - {id};
    }

    method Forget(namespace: string, name: string)
      requires Valid()
      modifies this`runs, this`gauges
      ensures Valid()
      ensures runs == old(runs) - {RunId(namespace, name)}
    {
      ForgetRun(RunId(namespace, name));
      SubsetSize(runs.Keys, old(runs).Keys);
    }

    /** Keep the runs that still exist, and count the others. */
    method Sweep(live: set<RunId>) returns (forgotten: nat)
      requires Valid()
      modifies this`runs, this`gauges
      ensures Valid()
      ensures runs == old(runs) - (old(runs).Keys - live)
      ensures forgotten == |old(runs).Keys - live|
    {
      hide AllLabelled, Exact;
      ghost var was := runs;
      forgotten := 0;
      var todo := runs.Keys;
      ghost var gone: set<RunId> := {};
      while todo != {}
        invariant Consistent() && maxRuns == old(maxRuns)
        invariant Halfway(was.Keys, todo, live, gone)
        invariant runs == was - gone
        invariant forgotten == |gone|
        decreases todo
      {
        var id :| id in todo;
        HalfwayStep(was.Keys, todo, live, gone, id);
        todo := todo - {id};
        if id !in live {
          ForgetRun(id);
          WithoutTwice(was, gone, {id});
          forgotten := forgotten + 1;
          gone := gone + {id};
        }
      }
      FewerRuns(was, gone);
    }

    /** evictLocked: the least recently observed go until the limit is met. */
    method Evict()
      requires Consistent()
      modifies this`runs, this`gauges, this`evicted
      ensures Valid()
      ensures Trimmed(old(runs), runs, maxRuns)
      ensures evicted == old(evicted) + (|old(runs)| - |runs|)
    {
      hide AllLabelled, Exact;
      while |runs| > maxRuns
        invariant Consistent() && maxRuns == old(maxRuns)
        invariant runs.Keys <= old(runs).Keys && forall id :: id in runs ==> runs[id] == old(runs)[id]
        invariant forall kept, gone :: kept in runs && gone in old(runs) && gone !in runs ==> old(runs)[gone].lastSeen <= runs[kept].lastSeen
        invariant |runs| <= |old(runs)| && (|runs| >= maxRuns || runs == old(runs))
        invariant evicted == old(evicted) + (|old(runs)| - |runs|)
        decreases |runs|
      {
        var oldest := Oldest(runs);
        label before:
        ForgetRun(oldest);
        assert runs.Keys == old@before(runs).Keys - {oldest};
        evicted := evicted + 1;
      }
    }

    method SetMaxRuns(n: int)
      requires Valid()
      modifies this
      ensures Valid()
      ensures maxRuns == if n < 1 then old(maxRuns) else n
      ensures n < 1 ==> runs == old(runs) && gauges == old(gauges) && evicted == old(evicted)
      ensures n >= 1 ==> Trimmed(old(runs), runs, n) && evicted == old(evicted) + (|old(runs)| - |runs|)
    {
      if n < 1 {
        return;
      }
      maxRuns := n;
      Evict();
    }

    /** applyLocked: what is new is written first, then what is stale is removed. */
    method Apply(id: RunId, next: Samples, now: int)
      requires Consistent() && Labelled(id, next)
      modifies this`runs, this`gauges
      ensures Consistent()
      ensures runs == old(runs)[id := RunState(now, next)]
    {
      var prev := if id in runs then runs[id].samples else map[];
      var written := Write(gauges, id, next);
      gauges := RemoveStale(written, id, prev, next);
      runs := runs[id := RunState(now, next)];
    }

    /**
      One delivery replaces the run with everything the delivery says, and the runs are then
      trimmed to the limit; all others keep their samples. The run just observed survives
      when the clock moves.
    */
    method Observe(env: Envelope, now: int) returns (ghost told: Samples)
      requires Valid()
      modifies this
      ensures Valid() && maxRuns == old(maxRuns)
      ensures env.id.name == "" ==> runs == old(runs) && gauges == old(gauges) && evicted == old(evicted)
      ensures env.id.name != "" ==>
        var before := old(runs)[env.id := RunState(now, told)];
        && AllTold(env, told) && Trimmed(before, runs, maxRuns) && evicted == old(evicted) + (|before| - |runs|)
      ensures env.id.name != "" && (forall id :: id in old(runs) && id != env.id ==> old(runs)[id].lastSeen < now) ==>
        env.id in runs && runs[env.id] == RunState(now, told)
    {
      if env.id.name == "" {
        return map[];
      }
      var next := SamplesOf(env);
      told := next;
      hide PhaseTold, TalliesTold, TimesTold, ResultsTold;
      Apply(env.id, next, now);
      ghost var before := runs;
      Evict();
      if forall id :: id in old(runs) && id != env.id ==> old(runs)[id].lastSeen < now {
        NewestSurvives(before, runs, maxRuns, env.id);
      }
    }
  }
}
