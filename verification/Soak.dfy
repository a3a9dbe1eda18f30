/**
  Segmented soaks: dividing a duration into windows, folding clean windows into a
  running aggregate, and stopping early on a violation no later window can retract.
*/
module Soak {
  import opened Base
  import opened Verdict

  // ---------------------------------------------------------------- windows

  const DEFAULT_DURATION_SECONDS: int := 600

  /** What a soak says about its windows. */
  datatype Spec = Spec(segmentSeconds: int, durationSeconds: int, abortEarly: bool)

  function SegmentSeconds(spec: Spec): int {
    if spec.segmentSeconds <= 0 then 0 else spec.segmentSeconds
  }

  function Duration(spec: Spec): int {
    if spec.durationSeconds <= 0 then DEFAULT_DURATION_SECONDS else spec.durationSeconds
  }

  /** How many full windows a soak divides into; zero when it is not segmented. */
  function SegmentsRequired(spec: Spec): int {
    var seg := SegmentSeconds(spec);
    if seg <= 0 then 0
    else
      var duration := Duration(spec);
      var n := duration / seg;
      var n := if duration % seg != 0 then n + 1 else n;
      if n < 1 then 1 else n
  }

  /** Enough full windows to cover the duration, and no window to spare. */
  lemma WindowsCoverDuration(spec: Spec)
    ensures var n, seg := SegmentsRequired(spec), spec.segmentSeconds;
            var duration := if spec.durationSeconds <= 0 then 600 else spec.durationSeconds;
            if seg > 0 then n >= 1 && n * seg >= duration && (n - 1) * seg < duration else n == 0
  {
    var seg, d := SegmentSeconds(spec), Duration(spec);
    if seg > 0 {
      assert d == d / seg * seg + d % seg;
      assert (d / seg + 1) * seg == d / seg * seg + seg;
    }
  }

  // ---------------------------------------------------------------- folding

  datatype Rule = Sum | Min | Max | Last

  /** How each metric combines across windows; declared beside its name, arbitrary here. */
  type Rules = string -> Rule

  /** Two readings of one metric. Text that is not a finite number sticks, except under Last. */
  function Combine(rule: Rule, prior: Value, next: Value): Value {
    if rule.Last? then next
    else if prior.Bad? then prior
    else if next.Bad? then next
    else match rule
      case Sum => Num(prior.x + next.x)
      case Min => if next.x < prior.x then next else prior
      case Max => if next.x > prior.x then next else prior
  }

  function Fold(rules: Rules, agg: Metrics, next: Metrics): Metrics {
    map m | m in agg.Keys + next.Keys ::
      if m !in next then agg[m] else if m !in agg then next[m] else Combine(rules(m), agg[m], next[m])
  }

  /** foldMetrics: the maps are walked in no particular order. */
  method FoldMetrics(rules: Rules, agg: Metrics, next: Metrics) returns (out: Metrics)
    ensures out == Fold(rules, agg, next)
  {
    if next == map[] {
      assert Fold(rules, agg, next) == agg;
      return agg;
    }
    out := agg;
    var todo := next.Keys;
    while todo != {}
      invariant todo <= next.Keys
      invariant out.Keys == agg.Keys + (next.Keys - todo)
      invariant forall m :: m in out ==> out[m] == if m in todo then agg[m] else Fold(rules, agg, next)[m]
      decreases todo
    {
      var name :| name in todo;
      if name !in out {
        out := out[name := next[name]];
      } else {
        out := out[name := Combine(rules(name), out[name], next[name])];
      }
      todo := todo - {name};
    }
  }

  function FoldUnmeasurable(prior: set<string>, declared: set<string>, agg: Metrics): set<string> {
    (prior + declared) - agg.Keys
  }

  /** foldUnmeasurable: declared and never measured. */
  method UnmeasurableAfter(prior: set<string>, declared: set<string>, agg: Metrics) returns (out: set<string>)
    ensures out == FoldUnmeasurable(prior, declared, agg)
  {
    var all := prior + declared;
    out := {};
    var todo := all;
    while todo != {}
      invariant todo <= all
      invariant out == (all - todo) - agg.Keys
      decreases todo
    {
      var name :| name in todo;
      if name !in agg {
        out := out + {name};
      }
      todo := todo - {name};
    }
  }

  /** One clean window's report. */
  datatype Segment = Segment(metrics: Metrics, declared: set<string>)

  /** The running state of a soak. */
  datatype Total = Total(metrics: Metrics, unmeasurable: set<string>)

  const EMPTY := Total(map[], {})

  function AddSegment(rules: Rules, total: Total, seg: Segment): Total {
    var agg := Fold(rules, total.metrics, seg.metrics);
    Total(agg, FoldUnmeasurable(total.unmeasurable, seg.declared, agg))
  }

  function AddAll(rules: Rules, total: Total, segs: seq<Segment>): Total
    decreases |segs|
  {
    if segs == [] then total else AddAll(rules, AddSegment(rules, total, segs[0]), segs[1..])
  }

  lemma {:induction false} AddAllSnoc(rules: Rules, total: Total, segs: seq<Segment>, seg: Segment)
    ensures AddAll(rules, total, segs + [seg]) == AddSegment(rules, AddAll(rules, total, segs), seg)
    decreases |segs|
  {
    if segs != [] {
      assert (segs + [seg])[1..] == segs[1..] + [seg];
      AddAllSnoc(rules, AddSegment(rules, total, segs[0]), segs[1..], seg);
    }
  }

  // ------------------------------------------------ what the aggregate is, declaratively

  /** The readings of one metric, in window order. */
  function Readings(segs: seq<Segment>, m: string): (r: seq<Value>)
  {
    if segs == [] then []
    else
      var front := segs[..|segs| - 1];
      var last := segs[|segs| - 1];
      Readings(front, m) + (if m in last.metrics then [last.metrics[m]] else [])
  }

  function SumOf(r: seq<Value>): real {
    if r == [] then 0.0 else SumOf(r[..|r| - 1]) + (if r[|r| - 1].Num? then r[|r| - 1].x else 0.0)
  }

  predicate AllFinite(r: seq<Value>) {
    forall i :: 0 <= i < |r| ==> r[i].Num?
  }

  /** v is the first reading that is not a finite number. */
  predicate FirstBad(r: seq<Value>, v: Value) {
    exists i :: 0 <= i < |r| && r[i] == v && v.Bad? && forall j :: 0 <= j < i ==> r[j].Num?
  }

  /** What a metric's aggregate must be, given all its readings. */
  predicate IsAggregate(rule: Rule, r: seq<Value>, v: Value)
    requires r != []
  {
    if rule.Last? then v == r[|r| - 1]
    else if !AllFinite(r) then FirstBad(r, v)
    else match rule
      case Sum => v == Num(SumOf(r))
      case Min => v in r && forall i :: 0 <= i < |r| ==> v.x <= r[i].x
      case Max => v in r && forall i :: 0 <= i < |r| ==> v.x >= r[i].x
  }

  lemma CombineExtends(rule: Rule, r: seq<Value>, v: Value, next: Value)
    requires r != [] && IsAggregate(rule, r, v)
    ensures IsAggregate(rule, r + [next], Combine(rule, v, next))
  {
    var r' := r + [next];
    assert r'[..|r'| - 1] == r && r'[|r|] == next;
    if !rule.Last? && !AllFinite(r) {
      var i :| 0 <= i < |r| && r[i] == v && v.Bad? && forall j :: 0 <= j < i ==> r[j].Num?;
      assert r'[i] == v && forall j :: 0 <= j < i ==> r'[j] == r[j];
    }
  }

  lemma SingleReading(rule: Rule, v: Value)
    ensures IsAggregate(rule, [v], v)
  {
    assert SumOf([v]) == SumOf([]) + (if v.Num? then v.x else 0.0);
  }

  lemma ReadingsSnoc(front: seq<Segment>, last: Segment, m: string)
    ensures Readings(front + [last], m) == Readings(front, m) + (if m in last.metrics then [last.metrics[m]] else [])
  {
    assert (front + [last])[..|front|] == front;
  }

  predicate Declared(segs: seq<Segment>, m: string) {
    exists i :: 0 <= i < |segs| && m in segs[i].declared
  }

  lemma DeclaredSnoc(front: seq<Segment>, last: Segment, m: string)
    ensures Declared(front + [last], m) <==> Declared(front, m) || m in last.declared
  {
    var segs := front + [last];
    assert segs[|front|] == last;
    if Declared(front, m) {
      var i :| 0 <= i < |front| && m in front[i].declared;
      assert m in segs[i].declared;
    }
  }

  /**
    At every point of a soak the aggregate of each metric is the sum, minimum,
    maximum or last of its readings over the clean windows, the first non-finite
    reading winning for all but Last; and the unmeasurable names are exactly those
    some window declared and none measured.
  */
  lemma {:induction false} AggregateLaw(rules: Rules, segs: seq<Segment>, m: string)
    ensures var total := AddAll(rules, EMPTY, segs);
            && (m in total.metrics <==> Readings(segs, m) != [])
            && (m in total.metrics ==> IsAggregate(rules(m), Readings(segs, m), total.metrics[m]))
            && (m in total.unmeasurable <==> Declared(segs, m) && Readings(segs, m) == [])
  {
    if segs != [] {
      var front, last := segs[..|segs| - 1], segs[|segs| - 1];
      assert segs == front + [last];
      AggregateLaw(rules, front, m);
      AddAllSnoc(rules, EMPTY, front, last);
      ReadingsSnoc(front, last, m);
      DeclaredSnoc(front, last, m);
      var before := AddAll(rules, EMPTY, front);
      hide AddAll, Readings, IsAggregate, Declared, Combine;
      if m in last.metrics && m in before.metrics {
        CombineExtends(rules(m), Readings(front, m), before.metrics[m], last.metrics[m]);
      } else if m in last.metrics {
        SingleReading(rules(m), last.metrics[m]);
        assert Readings(segs, m) == [last.metrics[m]];
      } else {
        assert Readings(segs, m) == Readings(front, m);
      }
    }
  }

  // ---------------------------------------------------------------- aborting early

  /** The operator's list of breaches that cannot be taken back. */
  predicate MonotoneBreach(rules: Rules, agg: Metrics, th: Threshold) {
    match rules(th.metric)
    case Sum =>
      || th.comparison.LTE?
      || (th.comparison.EQ? && th.metric in agg && agg[th.metric].Num? && th.value.Num? && agg[th.metric].x > th.value.x)
    case Min => th.comparison.GTE?
    case Max => th.comparison.LTE?
    case Last => false
  }

  /** Violations of the aggregate so far that the operator stops a soak for. */
  predicate Provable(rules: Rules, total: Total, th: Threshold) {
    Judge(total.metrics, total.unmeasurable, th) == Violated(Unsatisfied) && MonotoneBreach(rules, total.metrics, th)
  }

  /** provableViolations: the thresholds an early abort reports. */
  method ProvableViolations(rules: Rules, total: Total, violated: seq<nat>, ths: seq<Threshold>) returns (out: seq<nat>)
    requires forall i: nat :: i in violated <==> i < |ths| && Judge(total.metrics, total.unmeasurable, ths[i]).Violated?
    ensures forall i: nat :: i in out <==> i < |ths| && Provable(rules, total, ths[i])
  {
    out := [];
    for k := 0 to |violated|
      invariant forall i: nat :: i in out <==> i in violated[..k] && i < |ths| && Provable(rules, total, ths[i])
    {
      assert violated[..k + 1] == violated[..k] + [violated[k]];
      var i := violated[k];
      assert i in violated;
      if Judge(total.metrics, total.unmeasurable, ths[i]) == Violated(Unsatisfied) && MonotoneBreach(rules, total.metrics, ths[i]) {
        out := out + [i];
      }
    }
    assert violated[..|violated|] == violated;
  }

  /** Counters only count up. */
  predicate CountsUp(rules: Rules, segs: seq<Segment>, m: string) {
    forall i :: 0 <= i < |segs| && m in segs[i].metrics && rules(m).Sum? && segs[i].metrics[m].Num? ==> segs[i].metrics[m].x >= 0.0
  }

  /** On the wrong side of the gate, moving away from it or stuck. */
  predicate Beyond(rule: Rule, th: Threshold, v: Value) {
    && th.value.Num?
    && (|| (v.Bad? && !rule.Last?)
        || th.comparison.Unknown?
        || (v.Num? && match rule
            case Sum => (th.comparison.LTE? || th.comparison.EQ?) && v.x > th.value.x
            case Min => (th.comparison.GTE? || th.comparison.EQ?) && v.x < th.value.x
            case Max => (th.comparison.LTE? || th.comparison.EQ?) && v.x > th.value.x
            case Last => false))
  }

  predicate Lost(rules: Rules, total: Total, th: Threshold) {
    th.metric in total.metrics && th.metric !in total.unmeasurable && Beyond(rules(th.metric), th, total.metrics[th.metric])
  }

  /** The four cases the operator knows, and the ones it leaves to the end of the soak. */
  predicate Overlooked(rules: Rules, agg: Metrics, th: Threshold)
    requires th.metric in agg && agg[th.metric].Num? && th.value.Num?
  {
    || th.comparison.Unknown?
    || (rules(th.metric).Min? && th.comparison.EQ? && agg[th.metric].x < th.value.x)
    || (rules(th.metric).Max? && th.comparison.EQ? && agg[th.metric].x > th.value.x)
  }

  lemma {:induction false} LostStaysLost(rules: Rules, total: Total, more: seq<Segment>, th: Threshold)
    requires Lost(rules, total, th) && CountsUp(rules, more, th.metric)
    ensures Lost(rules, AddAll(rules, total, more), th)
    ensures Judge(AddAll(rules, total, more).metrics, AddAll(rules, total, more).unmeasurable, th).Violated?
    decreases |more|
  {
    if more != [] {
      assert CountsUp(rules, more[1..], th.metric);
      LostStaysLost(rules, AddSegment(rules, total, more[0]), more[1..], th);
    }
  }

  /**
    Early abort is sound: a soak stopped for a provable violation would have
    violated that same threshold at its last window, whatever clean windows came
    after, non-finite readings and unmeasurable declarations included.
  */
  lemma AbortIsSound(rules: Rules, segs: seq<Segment>, more: seq<Segment>, th: Threshold)
    requires Provable(rules, AddAll(rules, EMPTY, segs), th) && CountsUp(rules, more, th.metric)
    ensures var end := AddAll(rules, EMPTY, segs + more);
            Judge(end.metrics, end.unmeasurable, th).Violated?
  {
    AddAllConcat(rules, EMPTY, segs, more);
    LostStaysLost(rules, AddAll(rules, EMPTY, segs), more, th);
  }

  lemma {:induction false} AddAllConcat(rules: Rules, total: Total, a: seq<Segment>, b: seq<Segment>)
    ensures AddAll(rules, total, a + b) == AddAll(rules, AddAll(rules, total, a), b)
    decreases |a|
  {
    if a == [] {
      assert a + b == b;
    } else {
      assert (a + b)[1..] == a[1..] + b;
      AddAllConcat(rules, AddSegment(rules, total, a[0]), a[1..], b);
    }
  }

  // ------------------------------------------------ exactly when a violation is irrevocable

  /** No clean continuation of any length takes the violation back. */
  ghost predicate Irrevocable(rules: Rules, total: Total, th: Threshold) {
    forall more :: CountsUp(rules, more, th.metric) ==>
      var end := AddAll(rules, total, more);
      Judge(end.metrics, end.unmeasurable, th).Violated?
  }

  /** A reading that satisfies the gate again, where one exists. */
  function Remedy(rule: Rule, th: Threshold, got: real): real
    requires th.value.Num?
  {
    var want := th.value.x;
    match rule
    case Sum => if th.comparison.NEQ? then 1.0 else want - got
    case Min => if th.comparison.NEQ? then want - 1.0 else want
    case Max => if th.comparison.NEQ? then want + 1.0 else want
    case Last => if th.comparison.NEQ? then want + 1.0 else want
  }

  /** Any other violation of a measurement is taken back by one honest window. */
  lemma RemedyWorks(rules: Rules, total: Total, th: Threshold)
    requires Judge(total.metrics, total.unmeasurable, th) == Violated(Unsatisfied)
    requires !MonotoneBreach(rules, total.metrics, th) && !Overlooked(rules, total.metrics, th)
    ensures var x := Remedy(rules(th.metric), th, total.metrics[th.metric].x);
            var more := [Segment(map[th.metric := Num(x)], {})];
            && CountsUp(rules, more, th.metric)
            && var end := AddAll(rules, total, more);
               Judge(end.metrics, end.unmeasurable, th) == Satisfied
  {
    var x := Remedy(rules(th.metric), th, total.metrics[th.metric].x);
    var seg := Segment(map[th.metric := Num(x)], {});
    assert [seg][1..] == [];
    assert AddAll(rules, total, [seg]) == AddSegment(rules, total, seg);
  }

  /**
    The exact condition. The operator's four cases are all irrevocable, but they
    are not the whole list its documentation claims: an Equal gate on a minimum
    already below its value, or on a maximum already above it, can no longer be met
    either, and neither can an unknown comparison.
  */
  lemma IrrevocableExactly(rules: Rules, total: Total, th: Threshold)
    requires Judge(total.metrics, total.unmeasurable, th) == Violated(Unsatisfied)
    ensures Irrevocable(rules, total, th) <==> MonotoneBreach(rules, total.metrics, th) || Overlooked(rules, total.metrics, th)
  {
    if MonotoneBreach(rules, total.metrics, th) || Overlooked(rules, total.metrics, th) {
      forall more | CountsUp(rules, more, th.metric)
        ensures var end := AddAll(rules, total, more); Judge(end.metrics, end.unmeasurable, th).Violated?
      {
        LostStaysLost(rules, total, more, th);
      }
    } else {
      RemedyWorks(rules, total, th);
    }
  }

  /** Non-negative counters are needed: a negative reading takes a sum back under its ceiling. */
  lemma NegativeCountRetracts(rules: Rules, m: string)
    requires rules(m).Sum?
    ensures var th := Threshold(m, LTE, Num(0.0), false);
            var total := Total(map[m := Num(1.0)], {});
            var end := AddAll(rules, total, [Segment(map[m := Num(-1.0)], {})]);
            Provable(rules, total, th) && Judge(end.metrics, end.unmeasurable, th) == Satisfied
  {
    var seg := Segment(map[m := Num(-1.0)], {});
    assert [seg][1..] == [];
  }
}
