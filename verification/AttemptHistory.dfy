/**
  The attempt history over every sequence of openings, samples, completions and
  stops: numbering, retries, truncation, and what a settled result rests on.
*/
module AttemptHistory {
  import opened Base
  import opened Verdict
  import opened Soak
  import opened Attempts

  // ---------------------------------------------------------------- executions

  datatype Event =
    | Begin
    | Sample(at: int, metrics: Metrics)
    | Finish(parsed: Parsed, limit: int)
    | Stop(phase: Phase)
    | Abandon

  predicate Proper(e: Event) {
    e.Stop? ==> e.phase.Cancelled? || e.phase.Error?
  }

  /** A settled result is never advanced again. */
  function Step(rules: Rules, test: Test, r: Result, e: Event): Result {
    if r.phase.Terminal() then r
    else match e
      case Begin => Opened(r, NextNumber(r.attempts))
      case Sample(at, metrics) => Sampled(rules, r, at, metrics)
      case Finish(parsed, limit) => Completed(rules, test, limit, r, NextNumber(r.attempts), parsed)
      case Stop(phase) => Stopped(r, phase)
      case Abandon => Cut(r)
  }

  function After(rules: Rules, test: Test, r: Result, es: seq<Event>): Result {
    if es == [] then r else Step(rules, test, After(rules, test, r, es[..|es| - 1]), es[|es| - 1])
  }

  // ---------------------------------------------------------------- the shape of a history

  /** Two attempts that stand next to each other in the kept history. */
  predicate Link(p: Attempt, c: Attempt) {
    && p.number < c.number
    && (p.phase.Passed? || p.phase.Error?)
    && !c.trigger.Initial?
    && (c.trigger.ErrorRetry? <==> p.phase.Error? && p.number + 1 == c.number)
  }

  predicate Chain(s: seq<Attempt>) {
    forall i :: 0 < i < |s| ==> Link(s[i - 1], s[i])
  }

  function LastOf(s: seq<Attempt>): Attempt
    requires s != []
  {
    s[|s| - 1]
  }

  /** A last attempt that neither passed nor errored. */
  function Odd(s: seq<Attempt>): nat {
    if s != [] && !LastOf(s).phase.Passed? && !LastOf(s).phase.Error? then 1 else 0
  }

  /** Numbers run from one, and kept plus forgotten attempts make up the last number. */
  predicate Numbered(s: seq<Attempt>, truncated: int) {
    && Chain(s)
    && truncated >= 0
    && (if s == [] then truncated == 0
        else s[0].number == 1 && s[0].trigger.Initial? && LastOf(s).number == |s| + truncated)
  }

  /** Windows are opened only in a soak, repeats only outside one. */
  predicate Triggered(s: seq<Attempt>, segmentsRequired: int) {
    forall i :: 0 <= i < |s| ==>
      (s[i].trigger.NextSegment? ==> segmentsRequired > 0) && (s[i].trigger.Repeat? ==> segmentsRequired <= 0)
  }

  /** An open attempt directly follows the one before it, for the reason that one gave. */
  predicate Adjacent(s: seq<Attempt>, segmentsRequired: int) {
    InProgress(s) ==>
      && LastOf(s).trigger == TriggerFor(s[..|s| - 1], segmentsRequired)
      && (|s| >= 2 ==> s[|s| - 2].number + 1 == LastOf(s).number)
  }

  /** The passing attempts after the first, not counting one still open. */
  predicate Short(s: seq<Attempt>) {
    |s| > 1 ==> Tally(if InProgress(s) then s[1..|s| - 1] else s[1..], Passed) <= KEPT_PASSING
  }

  predicate Accounted(s: seq<Attempt>, phase: Phase, errorRetries: int) {
    && errorRetries >= 0
    && (if phase.Terminal() then Tally(s, Error) + Odd(s) <= errorRetries + 1
        else
          && phase.Running?
          && Tally(s, Error) == errorRetries
          && (s != [] ==> var p := LastOf(s).phase; p.Running? || p.Passed? || p.Error?))
    && (s != [] && (LastOf(s).phase.Failed? || LastOf(s).phase.Skipped?) ==> phase == LastOf(s).phase)
  }

  predicate HistoryOk(r: Result) {
    && Numbered(r.attempts, r.truncated)
    && Adjacent(r.attempts, r.segmentsRequired)
    && (if r.segmentsRequired > 0 then Short(r.attempts) else r.truncated == 0)
    && Accounted(r.attempts, r.phase, r.errorRetries)
  }

  // ---------------------------------------------------------------- truncation

  function Kept(s: seq<Attempt>, passing: bool): seq<Attempt> {
    if s == [] then []
    else if s[0].phase.Passed? == passing then [s[0]] + Kept(s[1..], passing)
    else Kept(s[1..], passing)
  }

  lemma {:induction false} KeptTally(s: seq<Attempt>)
    ensures |Kept(s, true)| == Tally(s, Passed)
    ensures |Kept(s, false)| == |s| - Tally(s, Passed)
  {
    if s != [] { KeptTally(s[1..]); }
  }

  /** Exactly the oldest passing attempts go; every other one stays, in order. */
  lemma {:induction false} DropPassingConserves(s: seq<Attempt>, k: nat)
    requires k <= Tally(s, Passed)
    ensures |Kept(s, true)| == Tally(s, Passed)
    ensures Kept(DropPassing(s, k), false) == Kept(s, false)
    ensures Kept(DropPassing(s, k), true) == Kept(s, true)[k..]
  {
    KeptTally(s);
    if s != [] && k > 0 {
      var rest := s[1..];
      KeptTally(rest);
      if s[0].phase.Passed? {
        DropPassingConserves(rest, k - 1);
        assert Kept(s, true)[k..] == Kept(rest, true)[k - 1..];
      } else {
        DropPassingConserves(rest, k);
        var d := DropPassing(rest, k);
        assert ([s[0]] + d)[1..] == d;
      }
    }
  }

  lemma {:induction false} DropPassingTally(s: seq<Attempt>, k: nat, p: Phase)
    requires k <= Tally(s, Passed)
    ensures |DropPassing(s, k)| == |s| - k
    ensures Tally(DropPassing(s, k), p) == Tally(s, p) - (if p.Passed? then k else 0)
  {
    if s != [] && k > 0 {
      var rest := s[1..];
      if s[0].phase.Passed? {
        DropPassingTally(rest, k - 1, p);
      } else {
        DropPassingTally(rest, k, p);
        assert ([s[0]] + DropPassing(rest, k))[1..] == DropPassing(rest, k);
      }
    }
  }

  lemma {:induction false} DropPassingLast(s: seq<Attempt>, k: nat)
    requires k < Tally(s, Passed)
    ensures DropPassing(s, k) != [] && LastOf(DropPassing(s, k)) == LastOf(s)
  {
    if k > 0 {
      DropPassingLast(s[1..], if s[0].phase.Passed? then k - 1 else k);
    }
  }

  lemma {:induction false} DropPassingKeepsChain(p: Attempt, s: seq<Attempt>, k: nat)
    requires Chain([p] + s)
    ensures Chain([p] + DropPassing(s, k))
    decreases |s|
  {
    if s != [] && k > 0 {
      var rest := s[1..];
      var all := [p] + s;
      forall i | 0 < i < |s| ensures Link(s[i - 1], s[i]) { assert Link(all[i], all[i + 1]); }
      assert Link(all[0], all[1]);
      assert [s[0]] + rest == s;
      if s[0].phase.Passed? {
        ChainSkips(p, s);
        DropPassingKeepsChain(p, rest, k - 1);
      } else {
        DropPassingKeepsChain(s[0], rest, k);
        var d := [s[0]] + DropPassing(rest, k);
        var out := [p] + d;
        forall i | 0 < i < |out| ensures Link(out[i - 1], out[i]) {
          if i > 1 { assert Link(d[i - 2], d[i - 1]); }
        }
      }
    }
  }

  /** A passing attempt can be forgotten between its neighbours. */
  lemma ChainSkips(p: Attempt, s: seq<Attempt>)
    requires s != [] && Chain([p] + s) && s[0].phase.Passed?
    ensures Chain([p] + s[1..])
  {
    var all, out := [p] + s, [p] + s[1..];
    assert Link(all[0], all[1]);
    forall i | 0 < i < |out| ensures Link(out[i - 1], out[i]) { assert Link(all[i], all[i + 1]); }
  }

  lemma {:induction false} ChainSorted(s: seq<Attempt>, i: nat, j: nat)
    requires Chain(s) && i < j < |s|
    ensures s[i].number < s[j].number
    decreases j
  {
    assert Link(s[j - 1], s[j]);
    if i < j - 1 { ChainSorted(s, i, j - 1); }
  }

  // ---------------------------------------------------------------- every step keeps the history

  lemma AppendKeeps(s: seq<Attempt>, truncated: int, c: Attempt)
    requires Numbered(s, truncated) && !InProgress(s)
    requires s != [] ==> Link(LastOf(s), c)
    requires s == [] ==> c.trigger.Initial?
    requires c.number == |s| + truncated + 1
    ensures Numbered(s + [c], truncated)
    ensures Tally(s + [c], Error) == Tally(s, Error) + (if c.phase.Error? then 1 else 0)
    ensures c.phase.Running? && Short(s) ==> Short(s + [c])
  {
    TallyConcat(s, [c], Error);
    var out := s + [c];
    if s != [] {
      assert out[1..|s|] == s[1..];
    }
  }

  lemma OpenedKeeps(r: Result)
    requires HistoryOk(r) && !r.phase.Terminal()
    ensures var o := Opened(r, NextNumber(r.attempts));
            HistoryOk(o) && InProgress(o.attempts) && o == r.(attempts := o.attempts) && LastOf(o.attempts).number == NextNumber(r.attempts)
  {
    hide Chain, Tally, Short;
    if !InProgress(r.attempts) {
      var c := Attempt(NextNumber(r.attempts), TriggerFor(r.attempts, r.segmentsRequired), Running, map[], None);
      AppendKeeps(r.attempts, r.truncated, c);
      assert (r.attempts + [c])[..|r.attempts|] == r.attempts;
    }
  }

  /** The open attempt takes its outcome. */
  lemma MarkKeeps(s: seq<Attempt>, truncated: int, a: Attempt)
    requires Numbered(s, truncated) && InProgress(s) && LastOf(s).phase.Running?
    requires a.number == LastOf(s).number && a.trigger == LastOf(s).trigger
    ensures var m := s[..|s| - 1] + [a];
            && Numbered(m, truncated)
            && Tally(m, Error) == Tally(s, Error) + (if a.phase.Error? then 1 else 0)
            && (Short(s) && !a.phase.Passed? ==> Short(m))
  {
    var n := |s| - 1;
    var front, m := s[..n], s[..n] + [a];
    assert s == front + [s[n]];
    TallyConcat(front, [s[n]], Error);
    TallyConcat(front, [a], Error);
    assert forall i :: 0 < i < n ==> Link(s[i - 1], s[i]);
    if n > 0 {
      assert Link(s[n - 1], s[n]);
      TallySnoc(m, 1, n, Passed);
      assert m[1..n] == s[1..n] && m[1..n + 1] == m[1..];
    }
  }

  lemma ThinKeeps(s: seq<Attempt>, truncated: int, drop: nat)
    requires Numbered(s, truncated) && s != [] && drop < Tally(s[1..], Passed)
    ensures var t := [s[0]] + DropPassing(s[1..], drop);
            && Numbered(t, truncated + drop)
            && LastOf(t) == LastOf(s)
            && Tally(t, Error) == Tally(s, Error)
            && Tally(t[1..], Passed) == Tally(s[1..], Passed) - drop
  {
    hide Chain, Tally, DropPassing;
    var rest := s[1..];
    var d := DropPassing(rest, drop);
    DropPassingLast(rest, drop);
    DropPassingTally(rest, drop, Passed);
    DropPassingTally(rest, drop, Error);
    assert s == [s[0]] + rest;
    DropPassingKeepsChain(s[0], rest, drop);
    TallyConcat([s[0]], d, Error);
    TallyConcat([s[0]], rest, Error);
    assert ([s[0]] + d)[1..] == d;
  }

  lemma TruncatedKeeps(m: Result)
    requires Numbered(m.attempts, m.truncated) && m.attempts != [] && !InProgress(m.attempts)
    ensures var t := Truncated(m);
            && t == m.(attempts := t.attempts, truncated := t.truncated)
            && t.attempts != []
            && Numbered(t.attempts, t.truncated)
            && LastOf(t.attempts) == LastOf(m.attempts)
            && Tally(t.attempts, Error) == Tally(m.attempts, Error)
            && (if m.segmentsRequired > 0 then Short(t.attempts) else t.truncated == m.truncated)
  {
    var s, drop := m.attempts, Surplus(m);
    if drop > 0 {
      ThinKeeps(s, m.truncated, drop);
    }
    hide Numbered, DropPassing;
  }

  lemma RecordedKeeps(test: Test, r: Result, parsed: Parsed)
    requires HistoryOk(r) && !r.phase.Terminal()
    ensures var rec := Recorded(test, r, NextNumber(r.attempts), parsed);
            var phase := AttemptOutcome(test, parsed).phase;
            && rec == r.(attempts := rec.attempts, truncated := rec.truncated, metrics := rec.metrics)
            && rec.attempts != []
            && Numbered(rec.attempts, rec.truncated)
            && LastOf(rec.attempts).phase == phase
            && LastOf(rec.attempts).number == NextNumber(r.attempts)
            && Tally(rec.attempts, Error) == r.errorRetries + (if phase.Error? then 1 else 0)
            && (if r.segmentsRequired > 0 then Short(rec.attempts) else rec.truncated == 0)
  {
    OpenedKeeps(r);
    var o := Opened(r, NextNumber(r.attempts));
    var a := LastOf(o.attempts).(phase := AttemptOutcome(test, parsed).phase, metrics := parsed.metrics);
    MarkKeeps(o.attempts, o.truncated, a);
    hide Numbered, Tally, Short, Opened, AttemptOutcome, Truncated;
    TruncatedKeeps(o.(attempts := o.attempts[..|o.attempts| - 1] + [a]));
  }

  /** What a completion does to the fields the history speaks of. */
  lemma CompletedShape(rules: Rules, test: Test, r: Result, parsed: Parsed, limit: int)
    ensures var c := Completed(rules, test, limit, r, NextNumber(r.attempts), parsed);
            var rec := Recorded(test, r, NextNumber(r.attempts), parsed);
            var phase := AttemptOutcome(test, parsed).phase;
            && c.attempts == rec.attempts && c.truncated == rec.truncated && c.segmentsRequired == rec.segmentsRequired
            && c.repeatsRequired == rec.repeatsRequired
            && (phase.Failed? || phase.Skipped? ==> c.phase == phase && c.errorRetries == rec.errorRetries)
            && (phase.Passed? ==> (c.phase == rec.phase || c.phase.Passed? || c.phase.Failed?) && c.errorRetries == rec.errorRetries)
            && (phase.Error? ==>
                  if rec.errorRetries < limit then c.phase == rec.phase && c.errorRetries == rec.errorRetries + 1
                  else c.phase.Error? && c.errorRetries == rec.errorRetries)
  {
    hide Recorded, AttemptOutcome, GateOutcome, ProvableSet, AddSegment;
  }

  lemma FinishKeeps(rules: Rules, test: Test, r: Result, parsed: Parsed, limit: int)
    requires HistoryOk(r) && !r.phase.Terminal()
    ensures var c := Completed(rules, test, limit, r, NextNumber(r.attempts), parsed);
            HistoryOk(c) && c.attempts != [] && !InProgress(c.attempts) && LastOf(c.attempts).number == NextNumber(r.attempts)
  {
    RecordedKeeps(test, r, parsed);
    CompletedShape(rules, test, r, parsed, limit);
    hide Recorded, Completed, AttemptOutcome, Numbered, Tally, Short;
  }

  lemma SampledKeeps(rules: Rules, r: Result, at: int, metrics: Metrics)
    requires HistoryOk(r) && !r.phase.Terminal()
    ensures HistoryOk(Sampled(rules, r, at, metrics))
  {
    if InProgress(r.attempts) {
      MarkKeeps(r.attempts, r.truncated, LastOf(r.attempts).(metrics := metrics, sampledAt := Some(at)));
      hide Numbered, Tally, Short, Fold;
    }
  }

  lemma StoppedKeeps(r: Result, phase: Phase)
    requires HistoryOk(r) && !r.phase.Terminal() && (phase.Cancelled? || phase.Error?)
    ensures HistoryOk(Stopped(r, phase))
  {
    if InProgress(r.attempts) {
      MarkKeeps(r.attempts, r.truncated, LastOf(r.attempts).(phase := phase));
      hide Numbered, Tally, Short;
    }
  }

  lemma StepKeeps(rules: Rules, test: Test, r: Result, e: Event)
    requires HistoryOk(r) && Proper(e)
    ensures HistoryOk(Step(rules, test, r, e))
  {
    hide Opened, Sampled, Completed, Stopped;
    if !r.phase.Terminal() {
      match e
      case Begin => OpenedKeeps(r);
      case Sample(at, metrics) => SampledKeeps(rules, r, at, metrics);
      case Finish(parsed, limit) => FinishKeeps(rules, test, r, parsed, limit);
      case Stop(phase) => StoppedKeeps(r, phase);
      case Abandon =>
    }
  }

  lemma {:induction false} HistoryHolds(rules: Rules, test: Test, es: seq<Event>)
    requires forall i :: 0 <= i < |es| ==> Proper(es[i])
    ensures HistoryOk(After(rules, test, New(test), es))
  {
    if es != [] {
      HistoryHolds(rules, test, es[..|es| - 1]);
      StepKeeps(rules, test, After(rules, test, New(test), es[..|es| - 1]), es[|es| - 1]);
    }
  }

  // ---------------------------------------------------------------- why each attempt was opened

  lemma {:induction false} DropPassingFrom(s: seq<Attempt>, k: nat)
    ensures forall a :: a in DropPassing(s, k) ==> a in s
  {
    if s != [] { DropPassingFrom(s[1..], if k > 0 && s[0].phase.Passed? then k - 1 else k); }
  }

  lemma TriggeredSome(s: seq<Attempt>, t: seq<Attempt>, segmentsRequired: int)
    requires Triggered(s, segmentsRequired) && forall a :: a in t ==> a in s
    ensures Triggered(t, segmentsRequired)
  {
    assert forall i :: 0 <= i < |t| ==> t[i] in s;
  }

  lemma OpenedTriggered(r: Result, number: int)
    requires Triggered(r.attempts, r.segmentsRequired)
    ensures Triggered(Opened(r, number).attempts, r.segmentsRequired)
  {
  }

  lemma MarkTriggered(s: seq<Attempt>, a: Attempt, segmentsRequired: int)
    requires s != [] && Triggered(s, segmentsRequired) && a.trigger == LastOf(s).trigger
    ensures Triggered(s[..|s| - 1] + [a], segmentsRequired)
  {
  }

  lemma TruncatedTriggered(r: Result)
    requires r.attempts != [] && Triggered(r.attempts, r.segmentsRequired)
    ensures Triggered(Truncated(r).attempts, r.segmentsRequired)
  {
    var drop := Surplus(r);
    DropPassingFrom(r.attempts[1..], drop);
    TriggeredSome(r.attempts, Truncated(r).attempts, r.segmentsRequired);
  }

  lemma StepTriggered(rules: Rules, test: Test, r: Result, e: Event)
    requires HistoryOk(r) && Triggered(r.attempts, r.segmentsRequired)
    ensures var r' := Step(rules, test, r, e); Triggered(r'.attempts, r.segmentsRequired) && r'.segmentsRequired == r.segmentsRequired
  {
    hide HistoryOk, Triggered, Fold, TriggerFor;
    if !r.phase.Terminal() {
      match e
      case Begin => OpenedTriggered(r, NextNumber(r.attempts));
      case Sample(at, metrics) =>
        if InProgress(r.attempts) { MarkTriggered(r.attempts, LastOf(r.attempts).(metrics := metrics, sampledAt := Some(at)), r.segmentsRequired); }
      case Finish(parsed, limit) => FinishTriggered(rules, test, r, parsed, limit);
      case Stop(phase) =>
        if InProgress(r.attempts) { MarkTriggered(r.attempts, LastOf(r.attempts).(phase := phase), r.segmentsRequired); }
      case Abandon =>
    }
  }

  lemma FinishTriggered(rules: Rules, test: Test, r: Result, parsed: Parsed, limit: int)
    requires HistoryOk(r) && !r.phase.Terminal() && Triggered(r.attempts, r.segmentsRequired)
    ensures var c := Completed(rules, test, limit, r, NextNumber(r.attempts), parsed);
            Triggered(c.attempts, r.segmentsRequired) && c.segmentsRequired == r.segmentsRequired
  {
    var n := NextNumber(r.attempts);
    OpenedKeeps(r);
    OpenedTriggered(r, n);
    CompletedShape(rules, test, r, parsed, limit);
    RecordedKeeps(test, r, parsed);
    var o := Opened(r, n);
    hide Completed, Opened, Triggered, HistoryOk, AttemptOutcome, Truncated;
    var a := LastOf(o.attempts).(phase := AttemptOutcome(test, parsed).phase, metrics := parsed.metrics);
    MarkTriggered(o.attempts, a, r.segmentsRequired);
    TruncatedTriggered(o.(attempts := o.attempts[..|o.attempts| - 1] + [a]));
  }

  lemma {:induction false} TriggersHold(rules: Rules, test: Test, es: seq<Event>)
    requires forall i :: 0 <= i < |es| ==> Proper(es[i])
    ensures var r := After(rules, test, New(test), es);
            Triggered(r.attempts, r.segmentsRequired) && r.segmentsRequired == New(test).segmentsRequired
  {
    if es != [] {
      TriggersHold(rules, test, es[..|es| - 1]);
      HistoryHolds(rules, test, es[..|es| - 1]);
      StepTriggered(rules, test, After(rules, test, New(test), es[..|es| - 1]), es[|es| - 1]);
    }
  }

  // ---------------------------------------------------------------- what the history says

  lemma {:induction false} PhasesAddUp(s: seq<Attempt>)
    requires Chain(s)
    ensures |s| == Tally(s, Passed) + Tally(s, Error) + Odd(s)
  {
    if |s| > 1 {
      var rest := s[1..];
      forall i | 0 < i < |rest| ensures Link(rest[i - 1], rest[i]) { assert Link(s[i], s[i + 1]); }
      assert Link(s[0], s[1]);
      PhasesAddUp(rest);
    }
  }

  /** Nothing follows a failed or skipped attempt, and error retries follow errors exactly. */
  predicate Orderly(s: seq<Attempt>, phase: Phase) {
    && (forall i, j :: 0 <= i < j < |s| ==> s[i].number < s[j].number)
    && (forall i :: 0 <= i < |s| && (s[i].phase.Failed? || s[i].phase.Skipped?) ==> i == |s| - 1 && phase == s[i].phase)
    && (forall i :: 0 <= i < |s| && s[i].trigger.ErrorRetry? ==> i > 0 && s[i - 1].phase.Error? && s[i - 1].number + 1 == s[i].number)
    && (forall i :: 0 < i < |s| && s[i - 1].phase.Error? && s[i - 1].number + 1 == s[i].number ==> s[i].trigger.ErrorRetry?)
  }

  lemma HistoryReads(r: Result)
    requires HistoryOk(r)
    ensures Orderly(r.attempts, r.phase)
  {
    var s := r.attempts;
    hide Tally;
    forall i, j | 0 <= i < j < |s| ensures s[i].number < s[j].number { ChainSorted(s, i, j); }
    forall i | 0 <= i < |s| - 1 ensures !s[i].phase.Failed? && !s[i].phase.Skipped? { assert Link(s[i], s[i + 1]); }
    forall i | 0 < i < |s| ensures s[i].trigger.ErrorRetry? <==> s[i - 1].phase.Error? && s[i - 1].number + 1 == s[i].number {
      assert Link(s[i - 1], s[i]);
    }
  }

  /**
    In every execution the history is orderly, kept and forgotten attempts make up the last
    number, and each attempt after the first that retries no error was opened for the next
    window of a soak, or else as a repeat.
  */
  lemma HistoryLaw(rules: Rules, test: Test, es: seq<Event>)
    requires forall i :: 0 <= i < |es| ==> Proper(es[i])
    ensures var r := After(rules, test, New(test), es);
            && Orderly(r.attempts, r.phase)
            && (r.attempts != [] ==> r.attempts[0].number == 1 && LastOf(r.attempts).number == |r.attempts| + r.truncated)
            && (r.attempts != [] ==> r.attempts[0].trigger.Initial?)
            && (forall i :: 0 < i < |r.attempts| && !r.attempts[i].trigger.ErrorRetry? ==>
                  r.attempts[i].trigger == if test.soak.segmentSeconds > 0 then NextSegment else Repeat)
  {
    HistoryHolds(rules, test, es);
    TriggersHold(rules, test, es);
    var r := After(rules, test, New(test), es);
    HistoryReads(r);
    hide After, Orderly, Tally, Short, Triggered;
    WhyOpened(r, test);
  }

  lemma WhyOpened(r: Result, test: Test)
    requires HistoryOk(r) && Triggered(r.attempts, r.segmentsRequired) && r.segmentsRequired == New(test).segmentsRequired
    ensures r.attempts != [] ==> r.attempts[0].trigger.Initial?
    ensures forall i :: 0 < i < |r.attempts| && !r.attempts[i].trigger.ErrorRetry? ==>
              r.attempts[i].trigger == if test.soak.segmentSeconds > 0 then NextSegment else Repeat
  {
    WindowsCoverDuration(test.soak);
    hide SegmentsRequired, Accounted, Short, Adjacent, Tally;
    forall i | 0 < i < |r.attempts| && !r.attempts[i].trigger.ErrorRetry?
      ensures r.attempts[i].trigger == if test.soak.segmentSeconds > 0 then NextSegment else Repeat
    {
      assert Link(r.attempts[i - 1], r.attempts[i]);
    }
  }

  /** How long the kept history of a soak gets, when no completion allowed more than `limit` retries. */
  lemma HistoryBound(rules: Rules, test: Test, es: seq<Event>, limit: nat)
    requires forall i :: 0 <= i < |es| ==> Proper(es[i]) && (es[i].Finish? ==> es[i].limit <= limit)
    ensures var r := After(rules, test, New(test), es);
            r.segmentsRequired > 0 && !InProgress(r.attempts) ==> |r.attempts| <= 18 + limit
  {
    HistoryHolds(rules, test, es);
    RetriesBounded(rules, test, es, limit);
    var r := After(rules, test, New(test), es);
    PhasesAddUp(r.attempts);
    hide After;
  }

  lemma {:induction false} RetriesBounded(rules: Rules, test: Test, es: seq<Event>, limit: nat)
    requires forall i :: 0 <= i < |es| ==> es[i].Finish? ==> es[i].limit <= limit
    ensures After(rules, test, New(test), es).errorRetries <= limit
  {
    if es != [] {
      var r := After(rules, test, New(test), es[..|es| - 1]);
      RetriesBounded(rules, test, es[..|es| - 1], limit);
      var e := es[|es| - 1];
      if e.Finish? {
        CompletedShape(rules, test, r, e.parsed, e.limit);
        RecordedRetries(test, r, NextNumber(r.attempts), e.parsed);
        hide Completed, Recorded;
      }
    }
  }

  lemma RecordedRetries(test: Test, r: Result, number: int, parsed: Parsed)
    ensures Recorded(test, r, number, parsed).errorRetries == r.errorRetries
  {
    hide AttemptOutcome, Surplus, DropPassing, TriggerFor;
  }

  /** Attempt numbers never go back, and a completion always moves on: none is used twice. */
  lemma NumbersMoveOn(rules: Rules, test: Test, r: Result, e: Event)
    requires HistoryOk(r) && Proper(e) && !r.phase.Terminal()
    ensures var r' := Step(rules, test, r, e);
            NextNumber(r'.attempts) >= NextNumber(r.attempts) && (e.Finish? ==> NextNumber(r'.attempts) == NextNumber(r.attempts) + 1)
  {
    hide Completed, Opened, HistoryOk, Fold;
    match e
    case Finish(parsed, limit) => FinishKeeps(rules, test, r, parsed, limit);
    case Begin => OpenedKeeps(r);
    case _ =>
  }

  /** A completion forgets only passing attempts, oldest first, and never the first or the one just recorded. */
  lemma TruncationConserves(m: Result)
    requires m.attempts != [] && Numbered(m.attempts, m.truncated) && !InProgress(m.attempts)
    ensures var t := Truncated(m);
            var s, d := m.attempts, t.attempts;
            && d != []
            && d[0] == s[0]
            && LastOf(d) == LastOf(s)
            && |d| + t.truncated == |s| + m.truncated
            && Kept(d[1..], false) == Kept(s[1..], false)
            && |Kept(d[1..], true)| <= |Kept(s[1..], true)|
            && Kept(d[1..], true) == Kept(s[1..], true)[|Kept(s[1..], true)| - |Kept(d[1..], true)|..]
            && (t.truncated != m.truncated ==> m.segmentsRequired > 0 && |Kept(d[1..], true)| == 16)
  {
    var s, drop := m.attempts, Surplus(m);
    TruncatedKeeps(m);
    assert Kept(s[1..], true)[0..] == Kept(s[1..], true);
    if drop > 0 {
      DropPassingConserves(s[1..], drop);
      DropPassingTally(s[1..], drop, Passed);
      hide Kept, DropPassing, Tally, Numbered;
      assert ([s[0]] + DropPassing(s[1..], drop))[1..] == DropPassing(s[1..], drop);
    }
  }
}
