/**
  One test on one execution unit: opening attempts, recording their outcomes, and
  deciding what they mean for the test as a whole.
*/
module Attempts {
  import opened Base
  import opened Verdict
  import opened Soak

  // ---------------------------------------------------------------- entities

  datatype Trigger = Initial | ErrorRetry | NextSegment | Repeat

  datatype Attempt = Attempt(number: int, trigger: Trigger, phase: Phase, metrics: Metrics, sampledAt: Option<int>)

  /** The parts of a pinned test that decide its verdict. */
  datatype Test = Test(thresholds: seq<Threshold>, soak: Spec, repeatCount: Option<int>)

  datatype Exit = ExitPass | ExitFail | ExitSkip | ExitError

  /** A terminated execution as its runner reported it. */
  datatype Parsed = Parsed(exit: Exit, metrics: Metrics, unmeasurable: set<string>, rejected: nat) {
    predicate ReportedNothing() {
      metrics == map[] && unmeasurable == {} && rejected == 0
    }
  }

  /** Gate outcomes, by threshold index. */
  datatype Evidence = Evidence(violated: set<nat>, applied: set<nat>, notEvaluated: set<nat>)

  const NO_EVIDENCE := Evidence({}, {}, {})

  datatype Result = Result(
    phase: Phase,
    attempts: seq<Attempt>,
    truncated: int,
    repeatsRequired: int,
    repeatsCompleted: int,
    segmentsRequired: int,
    segmentsCompleted: int,
    errorRetries: int,
    metrics: Metrics,
    aggregated: Metrics,
    unmeasurable: set<string>,
    evidence: Evidence,
    sampledAt: Option<int>
  )

  function RepeatsRequired(test: Test): (n: int)
    ensures n >= 1
    ensures test.repeatCount.Some? && test.repeatCount.value >= 1 ==> n == test.repeatCount.value
    ensures test.repeatCount.None? || test.repeatCount.value < 1 ==> n == 1
  {
    if test.repeatCount.None? || test.repeatCount.value < 1 then 1 else test.repeatCount.value
  }

  function New(test: Test): Result {
    Result(Running, [], 0, RepeatsRequired(test), 0, SegmentsRequired(test.soak), 0, 0, map[], map[], {}, NO_EVIDENCE, None)
  }

  // ---------------------------------------------------------------- one outcome

  datatype Judgement = Judgement(phase: Phase, evidence: Evidence, unmeasurable: set<string>)

  /** gateOutcome: the one place a threshold becomes a phase. */
  function GateOutcome(metrics: Metrics, unmeasurable: set<string>, ths: seq<Threshold>): (j: Judgement)
    ensures j.phase.Passed? || j.phase.Failed?
    ensures j.phase.Passed? <==> Passes(metrics, unmeasurable, ths)
  {
    var out := Evaluate(metrics, unmeasurable, ths);
    assert forall i: nat :: i < |ths| && Judge(metrics, unmeasurable, ths[i]).Violated? ==> i in out.violated;
    Judgement(if out.violated == {} then Passed else Failed, Evidence(out.violated, out.applied, out.notEvaluated), unmeasurable)
  }

  /**
    attemptOutcome: a clean exit that reported nothing against an acceptance bar is an
    Error and never a hardware verdict; a window of a segmented soak is not gated.
  */
  function AttemptOutcome(test: Test, parsed: Parsed): (j: Judgement)
    ensures j.phase.Passed? || j.phase.Failed? || j.phase.Skipped? || j.phase.Error?
    ensures j.unmeasurable == parsed.unmeasurable
  {
    match parsed.exit
    case ExitPass =>
      if test.thresholds != [] && parsed.ReportedNothing() then Judgement(Error, NO_EVIDENCE, parsed.unmeasurable)
      else GateOutcome(parsed.metrics, parsed.unmeasurable, if SegmentSeconds(test.soak) > 0 then [] else test.thresholds)
    case ExitFail => Judgement(Failed, NO_EVIDENCE, parsed.unmeasurable)
    case ExitSkip => Judgement(Skipped, NO_EVIDENCE, parsed.unmeasurable)
    case ExitError => Judgement(Error, NO_EVIDENCE, parsed.unmeasurable)
  }

  // ---------------------------------------------------------------- numbering

  predicate InProgress(attempts: seq<Attempt>) {
    attempts != [] && !attempts[|attempts| - 1].phase.Terminal()
  }

  function NextNumber(attempts: seq<Attempt>): int {
    if attempts == [] then 1
    else if InProgress(attempts) then attempts[|attempts| - 1].number
    else attempts[|attempts| - 1].number + 1
  }

  function TriggerFor(attempts: seq<Attempt>, segmentsRequired: int): Trigger {
    if attempts == [] then Initial
    else if attempts[|attempts| - 1].phase.Error? then ErrorRetry
    else if segmentsRequired > 0 then NextSegment
    else Repeat
  }

  /** beginAttempt: idempotent, and the only place an attempt is appended. */
  function Opened(r: Result, number: int): Result {
    if InProgress(r.attempts) && NextNumber(r.attempts) == number then r
    else r.(attempts := r.attempts + [Attempt(number, TriggerFor(r.attempts, r.segmentsRequired), Running, map[], None)])
  }

  // ---------------------------------------------------------------- truncation

  const KEPT_PASSING: int := 16

  function Tally(s: seq<Attempt>, phase: Phase): (n: nat)
    ensures n <= |s|
  {
    if s == [] then 0 else (if s[0].phase == phase then 1 else 0) + Tally(s[1..], phase)
  }

  /** Forget the k oldest passing attempts. */
  function DropPassing(s: seq<Attempt>, k: nat): seq<Attempt> {
    if s == [] || k == 0 then s
    else if s[0].phase.Passed? then DropPassing(s[1..], k - 1)
    else [s[0]] + DropPassing(s[1..], k)
  }

  /** How many attempts a completion forgets. */
  function Surplus(r: Result): (n: nat)
    ensures n > 0 ==> r.segmentsRequired > 0 && |r.attempts| > KEPT_PASSING + 1 && n == Tally(r.attempts[1..], Passed) - KEPT_PASSING
  {
    if r.segmentsRequired <= 0 || |r.attempts| <= KEPT_PASSING + 1 then 0
    else
      var drop := Tally(r.attempts[1..], Passed) - KEPT_PASSING;
      if drop <= 0 then 0 else drop
  }

  function Truncated(r: Result): Result {
    var drop := Surplus(r);
    if drop == 0 then r
    else r.(attempts := [r.attempts[0]] + DropPassing(r.attempts[1..], drop), truncated := r.truncated + drop)
  }

  // ---------------------------------------------------------------- completion

  /** The record of a finished execution, before the test is judged on it. */
  function Recorded(test: Test, r: Result, number: int, parsed: Parsed): Result {
    var open := Opened(r, number);
    var n := |open.attempts| - 1;
    var a := open.attempts[n].(phase := AttemptOutcome(test, parsed).phase, metrics := parsed.metrics);
    var kept := Truncated(open.(attempts := open.attempts[..n] + [a]));
    if parsed.metrics != map[] then kept.(metrics := parsed.metrics) else kept
  }

  function Folded(rules: Rules, r: Result, parsed: Parsed): Result {
    var total := AddSegment(rules, Total(r.aggregated, r.unmeasurable), Segment(parsed.metrics, parsed.unmeasurable));
    r.(segmentsCompleted := r.segmentsCompleted + 1,
       aggregated := total.metrics,
       unmeasurable := total.unmeasurable,
       metrics := if total.metrics != map[] then total.metrics else r.metrics)
  }

  function Settled(r: Result, phase: Phase, metrics: Metrics, evidence: Evidence, unmeasurable: set<string>): Result {
    r.(phase := phase, metrics := metrics, evidence := evidence, unmeasurable := unmeasurable)
  }

  /** Thresholds whose violation already stops a soak. */
  function ProvableSet(rules: Rules, total: Total, ths: seq<Threshold>): set<nat> {
    set i: nat | i < |ths| && Provable(rules, total, ths[i])
  }

  /** segmentVerdict: whether a soak is over, and with what. */
  function SegmentVerdict(rules: Rules, test: Test, r: Result): Option<Judgement> {
    if r.segmentsCompleted >= r.segmentsRequired then
      Some(GateOutcome(r.aggregated, r.unmeasurable, test.thresholds))
    else if !test.soak.abortEarly then None
    else
      var provable := ProvableSet(rules, Total(r.aggregated, r.unmeasurable), test.thresholds);
      if provable == {} then None else Some(Judgement(Failed, Evidence(provable, {}, {}), r.unmeasurable))
  }

  /** completeAttempt: the only place a verdict is decided. */
  function Completed(rules: Rules, test: Test, limit: int, r: Result, number: int, parsed: Parsed): Result {
    var j := AttemptOutcome(test, parsed);
    var rec := Recorded(test, r, number, parsed);
    if j.phase.Passed? then
      if rec.segmentsRequired > 0 then
        var folded := Folded(rules, rec, parsed);
        match SegmentVerdict(rules, test, folded)
        case None => folded
        case Some(v) =>
          var paid := if v.phase.Passed? then folded.(repeatsCompleted := folded.repeatsRequired) else folded;
          Settled(paid, v.phase, folded.aggregated, v.evidence, v.unmeasurable)
      else
        var counted := rec.(repeatsCompleted := rec.repeatsCompleted + 1);
        if counted.repeatsCompleted >= counted.repeatsRequired
        then Settled(counted, Passed, parsed.metrics, j.evidence, j.unmeasurable)
        else counted
    else if j.phase.Error? then
      if rec.errorRetries < limit then rec.(errorRetries := rec.errorRetries + 1)
      else if rec.segmentsRequired > 0 && rec.aggregated != map[]
      then Settled(rec, Error, rec.aggregated, NO_EVIDENCE, rec.unmeasurable)
      else Settled(rec, Error, parsed.metrics, j.evidence, j.unmeasurable)
    else Settled(rec, j.phase, parsed.metrics, j.evidence, j.unmeasurable)
  }

  /** checkpoint: evidence from a pod still running. */
  function Sampled(rules: Rules, r: Result, at: int, metrics: Metrics): Result {
    if r.phase.Terminal() || metrics == map[] then r
    else
      var published := if r.segmentsRequired > 0 && r.aggregated != map[] then Fold(rules, r.aggregated, metrics) else metrics;
      var n := |r.attempts| - 1;
      var attempts := if InProgress(r.attempts)
                      then r.attempts[..n] + [r.attempts[n].(metrics := metrics, sampledAt := Some(at))]
                      else r.attempts;
      r.(metrics := published, sampledAt := Some(at), attempts := attempts)
  }

  /** settleRemaining, on one result. */
  function Stopped(r: Result, phase: Phase): Result {
    if r.phase.Terminal() then r
    else
      var n := |r.attempts| - 1;
      var attempts := if InProgress(r.attempts) then r.attempts[..n] + [r.attempts[n].(phase := phase)] else r.attempts;
      r.(phase := phase, attempts := attempts)
  }

  /** terminate, on one result: left open, so it judged nothing. */
  function Cut(r: Result): Result {
    if r.phase.Terminal() then r else r.(phase := Error)
  }

  /** The loops of truncateAttempts: index the passing attempts, mark the oldest, copy the rest. */
  method Thin(all: seq<Attempt>) returns (kept: seq<Attempt>, drop: nat)
    requires all != []
    ensures drop == Excess(Tally(all[1..], Passed), KEPT_PASSING)
    ensures kept == [all[0]] + DropPassing(all[1..], drop)
  {
    var passing: seq<nat> := [];
    for i := 1 to |all|
      invariant |passing| == Tally(all[1..i], Passed)
      invariant forall k :: 0 <= k < |passing| ==> 1 <= passing[k] < i && all[passing[k]].phase.Passed? && Tally(all[1..passing[k]], Passed) == k
      invariant forall j :: 1 <= j < i && all[j].phase.Passed? ==> Tally(all[1..j], Passed) < |passing| && passing[Tally(all[1..j], Passed)] == j
    {
      hide Tally;
      TallySnoc(all, 1, i, Passed);
      if all[i].phase.Passed? {
        passing := passing + [i];
      }
    }
    assert all[1..|all|] == all[1..];
    if |passing| <= KEPT_PASSING {
      assert all == [all[0]] + all[1..];
      return all, 0;
    }
    drop := |passing| - KEPT_PASSING;
    kept := CopyExcept(all, drop, set k | 0 <= k < drop :: passing[k]);
  }

  lemma DropNext(s: seq<Attempt>, i: nat, k: nat)
    requires i < |s|
    ensures DropPassing(s[i..], k)
         == if s[i].phase.Passed? && k > 0 then DropPassing(s[i + 1..], k - 1) else [s[i]] + DropPassing(s[i + 1..], k)
  {
    assert s[i..][1..] == s[i + 1..];
    assert s[i..] == [s[i]] + s[i + 1..];
  }

  method CopyExcept(all: seq<Attempt>, drop: nat, dropped: set<nat>) returns (kept: seq<Attempt>)
    requires all != []
    requires forall j :: 1 <= j < |all| ==> (j in dropped <==> all[j].phase.Passed? && Tally(all[1..j], Passed) < drop)
    ensures kept == [all[0]] + DropPassing(all[1..], drop)
  {
    kept := [all[0]];
    for i := 1 to |all|
      invariant kept + DropPassing(all[i..], Excess(drop, Tally(all[1..i], Passed))) == [all[0]] + DropPassing(all[1..], drop)
    {
      hide Tally, DropPassing;
      TallySnoc(all, 1, i, Passed);
      ghost var left := Excess(drop, Tally(all[1..i], Passed));
      DropNext(all, i, left);
      ghost var before := kept;
      if i !in dropped {
        kept := kept + [all[i]];
      }
      assert before + ([all[i]] + DropPassing(all[i + 1..], left)) == before + [all[i]] + DropPassing(all[i + 1..], left);
    }
  }

  // ---------------------------------------------------------------- the record, updated in place

  class TestResult {
    var phase: Phase
    var attempts: seq<Attempt>
    var truncated: int
    const repeatsRequired: int
    var repeatsCompleted: int
    const segmentsRequired: int
    var segmentsCompleted: int
    var errorRetries: int
    var metrics: Metrics
    var aggregated: Metrics
    var unmeasurable: set<string>
    var evidence: Evidence
    var sampledAt: Option<int>

    ghost function View(): Result
      reads this
    {
      Result(phase, attempts, truncated, repeatsRequired, repeatsCompleted, segmentsRequired, segmentsCompleted,
             errorRetries, metrics, aggregated, unmeasurable, evidence, sampledAt)
    }

    constructor (test: Test)
      ensures View() == New(test)
    {
      phase := Running;
      attempts, truncated := [], 0;
      repeatsRequired, repeatsCompleted := RepeatsRequired(test), 0;
      segmentsRequired, segmentsCompleted := SegmentsRequired(test.soak), 0;
      errorRetries := 0;
      metrics, aggregated, unmeasurable := map[], map[], {};
      evidence, sampledAt := NO_EVIDENCE, None;
    }

    method BeginAttempt(number: int) returns (changed: bool)
      modifies this
      ensures View() == Opened(old(View()), number)
      ensures changed <==> attempts != old(attempts)
    {
      if InProgress(attempts) && NextNumber(attempts) == number {
        return false;
      }
      attempts := attempts + [Attempt(number, TriggerFor(attempts, segmentsRequired), Running, map[], None)];
      changed := true;
    }

    method TruncateAttempts()
      modifies this
      ensures View() == Truncated(old(View()))
    {
      if segmentsRequired <= 0 || |attempts| <= KEPT_PASSING + 1 {
        return;
      }
      var kept, drop := Thin(attempts);
      attempts := kept;
      truncated := truncated + drop;
    }

    method FoldSegment(rules: Rules, parsed: Parsed)
      modifies this
      ensures View() == Folded(rules, old(View()), parsed)
    {
      segmentsCompleted := segmentsCompleted + 1;
      aggregated := FoldMetrics(rules, aggregated, parsed.metrics);
      unmeasurable := UnmeasurableAfter(unmeasurable, parsed.unmeasurable, aggregated);
      if aggregated != map[] {
        metrics := aggregated;
      }
    }

    method Settle(final: Phase, finalMetrics: Metrics, ev: Evidence, declared: set<string>)
      modifies this
      ensures View() == Settled(old(View()), final, finalMetrics, ev, declared)
    {
      phase, metrics, evidence, unmeasurable := final, finalMetrics, ev, declared;
    }

    /** What every outcome writes down, before the test is judged on it. */
    method Record(test: Test, number: int, parsed: Parsed)
      modifies this
      ensures View() == Recorded(test, old(View()), number, parsed)
    {
      hide Truncated, AttemptOutcome, TriggerFor;
      var _ := BeginAttempt(number);
      var n := |attempts| - 1;
      attempts := attempts[..n] + [attempts[n].(phase := AttemptOutcome(test, parsed).phase, metrics := parsed.metrics)];
      TruncateAttempts();
      if parsed.metrics != map[] {
        metrics := parsed.metrics;
      }
    }

    method CompleteAttempt(rules: Rules, test: Test, limit: int, number: int, parsed: Parsed)
      modifies this
      ensures View() == Completed(rules, test, limit, old(View()), number, parsed)
    {
      hide Recorded, Folded, SegmentVerdict, AttemptOutcome;
      var j := AttemptOutcome(test, parsed);
      Record(test, number, parsed);
      if j.phase.Passed? && segmentsRequired > 0 {
        FoldSegment(rules, parsed);
        var verdict := SegmentVerdict(rules, test, Result(phase, attempts, truncated, repeatsRequired, repeatsCompleted,
          segmentsRequired, segmentsCompleted, errorRetries, metrics, aggregated, unmeasurable, evidence, sampledAt));
        if verdict.Some? {
          if verdict.value.phase.Passed? {
            repeatsCompleted := repeatsRequired;
          }
          Settle(verdict.value.phase, aggregated, verdict.value.evidence, verdict.value.unmeasurable);
        }
      } else if j.phase.Passed? {
        repeatsCompleted := repeatsCompleted + 1;
        if repeatsCompleted >= repeatsRequired {
          Settle(Passed, parsed.metrics, j.evidence, j.unmeasurable);
        }
      } else if j.phase.Error? {
        if errorRetries < limit {
          errorRetries := errorRetries + 1;
        } else if segmentsRequired > 0 && aggregated != map[] {
          Settle(Error, aggregated, NO_EVIDENCE, unmeasurable);
        } else {
          Settle(Error, parsed.metrics, j.evidence, j.unmeasurable);
        }
      } else {
        Settle(j.phase, parsed.metrics, j.evidence, j.unmeasurable);
      }
    }

    /** A sample is due one interval after the last, and a log that yields no metric is not one. */
    method Checkpoint(rules: Rules, interval: int, now: int, since: Option<int>, log: Option<Metrics>) returns (wrote: bool)
      modifies this
      ensures wrote <==> interval > 0 && !old(phase).Terminal() && (since.Some? ==> now - since.value >= interval) && log.Some? && log.value != map[]
      ensures View() == if wrote then Sampled(rules, old(View()), now, log.value) else old(View())
    {
      if interval <= 0 || phase.Terminal() || (since.Some? && now - since.value < interval) || log.None? || log.value == map[] {
        return false;
      }
      var published := log.value;
      if segmentsRequired > 0 && aggregated != map[] {
        published := FoldMetrics(rules, aggregated, log.value);
      }
      metrics := published;
      sampledAt := Some(now);
      if InProgress(attempts) {
        var n := |attempts| - 1;
        attempts := attempts[..n] + [attempts[n].(metrics := log.value, sampledAt := Some(now))];
      }
      return true;
    }
  }

  function Excess(a: int, b: int): (n: nat)
    ensures n == if a > b then a - b else 0
  {
    if a > b then a - b else 0
  }

  lemma {:induction false} TallyConcat(a: seq<Attempt>, b: seq<Attempt>, phase: Phase)
    ensures Tally(a + b, phase) == Tally(a, phase) + Tally(b, phase)
  {
    if a == [] {
      assert a + b == b;
    } else {
      assert (a + b)[1..] == a[1..] + b;
      TallyConcat(a[1..], b, phase);
    }
  }

  lemma TallySnoc(s: seq<Attempt>, lo: nat, hi: nat, phase: Phase)
    requires lo <= hi < |s|
    ensures Tally(s[lo..hi + 1], phase) == Tally(s[lo..hi], phase) + (if s[hi].phase == phase then 1 else 0)
  {
    assert s[lo..hi + 1] == s[lo..hi] + [s[hi]];
    TallyConcat(s[lo..hi], [s[hi]], phase);
  }
}
