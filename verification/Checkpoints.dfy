/** Openings and checkpoints are evidence, never a verdict: only completions matter. */
module Checkpoints {
  import opened Base
  import opened Verdict
  import opened Soak
  import opened Attempts
  import opened AttemptHistory
  import opened AttemptVerdict

  // ---------------------------------------------------------------- what a checkpoint may touch

  function Strip(s: seq<Attempt>): (t: seq<Attempt>)
    ensures |t| == |s|
  {
    if s == [] then [] else [s[0].(sampledAt := None)] + Strip(s[1..])
  }

  /** The attempts that have finished. */
  function Past(s: seq<Attempt>): seq<Attempt> {
    if InProgress(s) then s[..|s| - 1] else s
  }

  /** A result without sampling times and, while it is open, without work in progress. */
  function Erase(r: Result): Result {
    if r.phase.Terminal() then r.(attempts := Strip(r.attempts), sampledAt := None)
    else r.(attempts := Strip(Past(r.attempts)), sampledAt := None, metrics := map[])
  }

  lemma {:induction false} StripConcat(a: seq<Attempt>, b: seq<Attempt>)
    ensures Strip(a + b) == Strip(a) + Strip(b)
  {
    if a == [] {
      assert a + b == b;
    } else {
      assert (a + b)[1..] == a[1..] + b;
      StripConcat(a[1..], b);
    }
  }

  lemma {:induction false} StripAt(s: seq<Attempt>, i: nat)
    requires i < |s|
    ensures Strip(s)[i] == s[i].(sampledAt := None)
  {
    if i > 0 { StripAt(s[1..], i - 1); }
  }

  lemma {:induction false} StripTally(s: seq<Attempt>, phase: Phase)
    ensures Tally(Strip(s), phase) == Tally(s, phase)
  {
    if s != [] {
      StripTally(s[1..], phase);
      assert Strip(s)[1..] == Strip(s[1..]);
    }
  }

  lemma {:induction false} StripDrop(s: seq<Attempt>, k: nat)
    ensures Strip(DropPassing(s, k)) == DropPassing(Strip(s), k)
  {
    if s != [] && k > 0 {
      assert Strip(s)[1..] == Strip(s[1..]);
      if s[0].phase.Passed? {
        StripDrop(s[1..], k - 1);
      } else {
        StripDrop(s[1..], k);
        StripConcat([s[0]], DropPassing(s[1..], k));
        assert Strip([s[0]]) == [s[0].(sampledAt := None)];
      }
    }
  }

  lemma {:induction false} StripTwice(s: seq<Attempt>)
    ensures Strip(Strip(s)) == Strip(s)
  {
    if s != [] {
      assert Strip(s)[1..] == Strip(s[1..]);
      StripTwice(s[1..]);
    }
  }

  // ---------------------------------------------------------------- openings and samples change nothing else

  lemma QuietErased(rules: Rules, test: Test, r: Result, e: Event)
    requires e.Begin? || e.Sample?
    ensures Erase(Step(rules, test, r, e)) == Erase(r)
  {
    if !r.phase.Terminal() {
      var s := r.attempts;
      if e.Begin? && !InProgress(s) {
        var c := Attempt(NextNumber(s), TriggerFor(s, r.segmentsRequired), Running, map[], None);
        assert (s + [c])[..|s|] == s;
      } else if e.Sample? && InProgress(s) {
        var c := LastOf(s).(metrics := e.metrics, sampledAt := Some(e.at));
        assert (s[..|s| - 1] + [c])[..|s| - 1] == s[..|s| - 1];
      }
    }
  }

  // ---------------------------------------------------------------- completions see through the eraser

  /** Two results that differ only in what checkpoints touch. */
  predicate Alike(a: Result, b: Result) {
    a.(attempts := Strip(a.attempts), sampledAt := None, metrics := map[]) == b.(attempts := Strip(b.attempts), sampledAt := None, metrics := map[])
  }

  lemma TruncatedAlike(a: Result, b: Result)
    requires Alike(a, b) && a.attempts != [] && b.attempts != []
    ensures Alike(Truncated(a), Truncated(b))
  {
    var s, t := a.attempts, b.attempts;
    assert |s| == |Strip(s)| == |t|;
    assert Strip(s)[1..] == Strip(s[1..]) && Strip(t)[1..] == Strip(t[1..]);
    StripTally(s[1..], Passed);
    StripTally(t[1..], Passed);
    var k := Surplus(a);
    assert Surplus(b) == k;
    if k > 0 {
      StripDrop(s[1..], k);
      StripDrop(t[1..], k);
      StripConcat([s[0]], DropPassing(s[1..], k));
      StripConcat([t[0]], DropPassing(t[1..], k));
      assert Strip([s[0]]) == [Strip(s)[0]] && Strip([t[0]]) == [Strip(t)[0]];
    }
  }

  lemma NextErased(r: Result)
    requires HistoryOk(r) && !r.phase.Terminal()
    ensures NextNumber(Erase(r).attempts) == NextNumber(r.attempts)
    ensures !InProgress(Erase(r).attempts)
    ensures TriggerFor(Erase(r).attempts, r.segmentsRequired) == TriggerFor(Past(r.attempts), r.segmentsRequired)
    ensures !InProgress(Past(r.attempts))
  {
    var s := r.attempts;
    var past := Past(s);
    hide Tally, Short;
    if past != [] {
      StripAt(past, |past| - 1);
      if InProgress(s) {
        assert Link(s[|s| - 2], s[|s| - 1]);
      }
    }
  }

  lemma RecordedAlike(test: Test, r: Result, p: Parsed)
    requires HistoryOk(r) && !r.phase.Terminal()
    ensures Alike(Recorded(test, r, NextNumber(r.attempts), p), Recorded(test, Erase(r), NextNumber(r.attempts), p))
  {
    NextErased(r);
    var n := NextNumber(r.attempts);
    var o, o' := Opened(r, n), Opened(Erase(r), n);
    var past := Past(r.attempts);
    var phase := AttemptOutcome(test, p).phase;
    var a := LastOf(o.attempts).(phase := phase, metrics := p.metrics);
    var a' := LastOf(o'.attempts).(phase := phase, metrics := p.metrics);
    assert o.attempts[..|past|] == past && |o.attempts| == |past| + 1;
    assert o'.attempts[..|past|] == Strip(past) && |o'.attempts| == |past| + 1;
    assert a' == a.(sampledAt := None);
    StripTwice(past);
    StripConcat(past, [a]);
    StripConcat(Strip(past), [a']);
    hide Strip, HistoryOk, Truncated, Opened, AttemptOutcome;
    TruncatedAlike(o.(attempts := past + [a]), o'.(attempts := Strip(past) + [a']));
  }

  lemma AlikeErases(a: Result, b: Result)
    requires Alike(a, b) && !InProgress(a.attempts) && (a.phase.Terminal() ==> a.metrics == b.metrics)
    ensures Erase(a) == Erase(b)
  {
    var s, t := a.attempts, b.attempts;
    assert |s| == |Strip(s)| == |t|;
    if s != [] {
      StripAt(s, |s| - 1);
      StripAt(t, |t| - 1);
      assert LastOf(s).phase == LastOf(t).phase;
    }
  }

  lemma CompletedErased(rules: Rules, test: Test, limit: int, r: Result, p: Parsed)
    requires HistoryOk(r) && !r.phase.Terminal()
    ensures var n := NextNumber(r.attempts);
            Erase(Completed(rules, test, limit, r, n, p)) == Erase(Completed(rules, test, limit, Erase(r), n, p))
  {
    var n := NextNumber(r.attempts);
    RecordedAlike(test, r, p);
    RecordedKeeps(test, r, p);
    var c, c' := Completed(rules, test, limit, r, n, p), Completed(rules, test, limit, Erase(r), n, p);
    ConcludedAlike(rules, test, limit, r, Erase(r), n, p);
    hide Strip, HistoryOk, Completed, Recorded, AttemptOutcome, Alike;
    AlikeErases(c, c');
  }

  lemma ConcludedAlike(rules: Rules, test: Test, limit: int, r: Result, q: Result, n: int, p: Parsed)
    requires Alike(Recorded(test, r, n, p), Recorded(test, q, n, p)) && !Recorded(test, r, n, p).phase.Terminal()
    ensures var c, d := Completed(rules, test, limit, r, n, p), Completed(rules, test, limit, q, n, p);
            Alike(c, d) && (c.phase.Terminal() ==> c.metrics == d.metrics) && c.attempts == Recorded(test, r, n, p).attempts
  {
    hide Strip, Recorded, AttemptOutcome, GateOutcome, ProvableSet, AddSegment;
  }

  // ---------------------------------------------------------------- removing checkpoints

  /** The completions of an execution. */
  function Finishes(es: seq<Event>): seq<Event> {
    if es == [] then []
    else Finishes(es[..|es| - 1]) + (if es[|es| - 1].Finish? then [es[|es| - 1]] else [])
  }

  predicate Undisturbed(es: seq<Event>) {
    forall i :: 0 <= i < |es| ==> es[i].Begin? || es[i].Sample? || es[i].Finish?
  }

  lemma {:induction false} FinishesAreFinishes(es: seq<Event>)
    ensures forall i :: 0 <= i < |Finishes(es)| ==> Finishes(es)[i].Finish?
  {
    if es != [] { FinishesAreFinishes(es[..|es| - 1]); }
  }

  lemma {:induction false} OnlyFinishesMatter(rules: Rules, test: Test, es: seq<Event>)
    requires Undisturbed(es)
    ensures Erase(After(rules, test, New(test), es)) == Erase(After(rules, test, New(test), Finishes(es)))
  {
    if es != [] {
      var front, e := es[..|es| - 1], es[|es| - 1];
      OnlyFinishesMatter(rules, test, front);
      var r := After(rules, test, New(test), front);
      var done := Finishes(front);
      var q := After(rules, test, New(test), done);
      hide Erase, Step;
      if e.Finish? {
        HistoryHolds(rules, test, front);
        FinishesAreFinishes(front);
        HistoryHolds(rules, test, done);
        assert (done + [e])[..|done|] == done;
        FinishErased(rules, test, r, q, e);
      } else {
        QuietErased(rules, test, r, e);
        assert Finishes(es) == done;
      }
    }
  }

  lemma FinishErased(rules: Rules, test: Test, r: Result, q: Result, e: Event)
    requires HistoryOk(r) && HistoryOk(q) && Erase(r) == Erase(q) && e.Finish?
    ensures Erase(Step(rules, test, r, e)) == Erase(Step(rules, test, q, e))
  {
    hide HistoryOk, Strip, Completed, NextNumber;
    if !r.phase.Terminal() {
      NextErased(r);
      NextErased(q);
      CompletedErased(rules, test, e.limit, r, e.parsed);
      CompletedErased(rules, test, e.limit, q, e.parsed);
    }
  }

  /**
    Two executions with the same completions agree, however they were opened and
    sampled: phase, counters, aggregate, evidence, number of attempts and, once
    settled, the final metrics.
  */
  lemma CheckpointsDoNotInterfere(rules: Rules, test: Test, es: seq<Event>, fs: seq<Event>)
    requires Undisturbed(es) && Undisturbed(fs) && Finishes(es) == Finishes(fs)
    ensures var r, q := After(rules, test, New(test), es), After(rules, test, New(test), fs);
            && Erase(r) == Erase(q)
            && r.phase == q.phase
            && r.aggregated == q.aggregated && r.unmeasurable == q.unmeasurable && r.evidence == q.evidence
            && r.repeatsCompleted == q.repeatsCompleted && r.segmentsCompleted == q.segmentsCompleted
            && r.errorRetries == q.errorRetries && r.truncated == q.truncated
            && (r.phase.Terminal() ==> r.metrics == q.metrics && |r.attempts| == |q.attempts|)
  {
    OnlyFinishesMatter(rules, test, es);
    OnlyFinishesMatter(rules, test, fs);
    hide After;
  }

  // ---------------------------------------------------------------- the settling law, for every execution

  function Outcomes(es: seq<Event>): seq<Parsed> {
    if es == [] then []
    else Outcomes(es[..|es| - 1]) + (if es[|es| - 1].Finish? then [es[|es| - 1].parsed] else [])
  }

  lemma {:induction false} FinishesPlay(rules: Rules, test: Test, limit: int, es: seq<Event>)
    requires forall i :: 0 <= i < |es| && es[i].Finish? ==> es[i].limit == limit
    ensures After(rules, test, New(test), Finishes(es)) == Play(rules, test, limit, Outcomes(es))
  {
    if es != [] {
      var front, e := es[..|es| - 1], es[|es| - 1];
      FinishesPlay(rules, test, limit, front);
      hide Step;
      if e.Finish? {
        assert Finishes(es)[..|Finishes(front)|] == Finishes(front);
        assert Outcomes(es)[..|Outcomes(front)|] == Outcomes(front);
      } else {
        assert Finishes(es) == Finishes(front) && Outcomes(es) == Outcomes(front);
      }
    }
  }

  /**
    With any openings and checkpoints between them, a test's completions settle it at
    the first decision and with that decision's phase; until then the aggregate and the
    unmeasurable names are those of the clean windows alone.
  */
  lemma ExecutionLaw(rules: Rules, test: Test, limit: nat, es: seq<Event>)
    requires Undisturbed(es)
    requires forall i :: 0 <= i < |es| && es[i].Finish? ==> es[i].limit == limit
    ensures var r, ps := After(rules, test, New(test), es), Outcomes(es);
            && (r.phase.Terminal() <==> exists k: nat :: DecidedAt(rules, test, limit, ps, k))
            && (forall k: nat :: DecidedAt(rules, test, limit, ps, k) ==> Some(r.phase) == Decision(rules, test, limit, ps[..k]))
            && (!r.phase.Terminal() && r.segmentsRequired > 0 ==> Total(r.aggregated, r.unmeasurable) == Gathered(rules, test, ps))
  {
    OnlyFinishesMatter(rules, test, es);
    FinishesPlay(rules, test, limit, es);
    var ps := Outcomes(es);
    SettlesAtTheFirstDecision(rules, test, limit, ps);
    hide After, Play, Decision, Gathered;
    if forall k: nat :: !DecidedAt(rules, test, limit, ps, k) {
      NeverDecided(rules, test, limit, ps, |ps|);
      PlayTracks(rules, test, limit, ps);
    }
  }

  // ---------------------------------------------------------------- a pass under any retry limits

  /** What a pass rests on: only passes and errors, every required execution clear by itself, or the windows together. */
  ghost predicate Grounds(rules: Rules, test: Test, ps: seq<Parsed>) {
    && (forall i :: 0 <= i < |ps| ==> OutcomePhase(test, ps[i]).Passed? || OutcomePhase(test, ps[i]).Error?)
    && if SegmentsRequired(test.soak) > 0
       then Count(test, ps, Passed) == SegmentsRequired(test.soak) && SoakCleared(rules, test, ps)
       else |set i | 0 <= i < |ps| && Cleared(test, ps[i])| == RepeatsRequired(test)
  }

  /** Open, true to its outcomes, and still owing executions. */
  ghost predicate OpenOn(rules: Rules, test: Test, ps: seq<Parsed>, r: Result) {
    && Tracks(rules, test, ps, r)
    && (forall i :: 0 <= i < |ps| ==> OutcomePhase(test, ps[i]).Passed? || OutcomePhase(test, ps[i]).Error?)
    && if r.segmentsRequired > 0 then r.segmentsCompleted < r.segmentsRequired else r.repeatsCompleted < r.repeatsRequired
  }

  lemma QuietTracks(rules: Rules, test: Test, ps: seq<Parsed>, r: Result, e: Event)
    requires OpenOn(rules, test, ps, r) && (e.Begin? || e.Sample?)
    ensures OpenOn(rules, test, ps, Step(rules, test, r, e))
  {
    hide HistoryOk, Gathered, Count, Fold, AttemptOutcome, Opened;
    AttemptHistory.StepKeeps(rules, test, r, e);
    if e.Begin? { OpenedKeeps(r); }
  }

  /** One more outcome, whatever the limit: still open on it, or settled, and passed only on its grounds. */
  lemma FinishOnGrounds(rules: Rules, test: Test, ps: seq<Parsed>, r: Result, p: Parsed, limit: int)
    requires OpenOn(rules, test, ps, r)
    ensures var c := Step(rules, test, r, Finish(p, limit));
            && (!c.phase.Terminal() ==> OpenOn(rules, test, ps + [p], c))
            && (c.phase.Passed? ==> Grounds(rules, test, ps + [p]))
  {
    hide HistoryOk, Recorded, Completed, AttemptOutcome, AddSegment, Gathered, Count, Condemned, Passes, NextNumber, SoakCleared, Cleared, OutcomePhase;
    GatheredSnoc(rules, test, ps, p);
    NumbersMoveOn(rules, test, r, Finish(p, limit));
    FinishKeeps(rules, test, r, p, limit);
    RecordedKeeps(test, r, p);
    CompletedShape(rules, test, r, p, limit);
    PhaseIsOutcome(test, p);
    match OutcomePhase(test, p)
    case Passed =>
      if r.segmentsRequired > 0 {
        WindowCounts(rules, test, r, p, limit);
        if r.segmentsCompleted + 1 >= r.segmentsRequired { WindowsSuffice(rules, test, ps + [p]); }
      } else {
        RepeatCounts(rules, test, r, p, limit);
        CountCleared(test, ps + [p]);
      }
    case Error => ErrorCounts(rules, test, r, p, limit);
    case _ =>
  }

  lemma PhaseIsOutcome(test: Test, p: Parsed)
    ensures OutcomePhase(test, p) == AttemptOutcome(test, p).phase
  {
  }

  /** The required number of windows, cleared together, is a cleared soak. */
  lemma WindowsSuffice(rules: Rules, test: Test, ps: seq<Parsed>)
    requires SegmentsRequired(test.soak) > 0 && Count(test, ps, Passed) >= SegmentsRequired(test.soak)
    ensures SoakCleared(rules, test, ps) <==>
      Passes(Gathered(rules, test, ps).metrics, Gathered(rules, test, ps).unmeasurable, test.thresholds)
  {
    WindowsCoverDuration(test.soak);
    hide Gathered, Passes, Count, SegmentsRequired;
    AtLeast(Count(test, ps, Passed), SegmentsRequired(test.soak), SegmentSeconds(test.soak));
  }

  lemma AtLeast(a: int, b: int, c: nat)
    requires a >= b
    ensures a * c >= b * c
  {
  }

  lemma {:induction false} OpenTracks(rules: Rules, test: Test, es: seq<Event>)
    requires Undisturbed(es) && !After(rules, test, New(test), es).phase.Terminal()
    ensures OpenOn(rules, test, Outcomes(es), After(rules, test, New(test), es))
  {
    if es != [] {
      var front, e := es[..|es| - 1], es[|es| - 1];
      var r := After(rules, test, New(test), front);
      hide OpenOn;
      OpenTracks(rules, test, front);
      if e.Finish? {
        FinishOnGrounds(rules, test, Outcomes(front), r, e.parsed, e.limit);
      } else {
        QuietTracks(rules, test, Outcomes(front), r, e);
        assert Outcomes(es) == Outcomes(front);
      }
    }
  }

  /** In every execution, with the retry limit changing as it may, a pass rests on the outcomes recorded for it. */
  lemma {:induction false} PassedHasGrounds(rules: Rules, test: Test, es: seq<Event>) returns (k: nat)
    requires Undisturbed(es) && After(rules, test, New(test), es).phase.Passed?
    ensures k <= |es| && After(rules, test, New(test), es[..k]) == After(rules, test, New(test), es)
    ensures Grounds(rules, test, Outcomes(es[..k]))
  {
    hide OpenOn, Grounds, Step;
    var front, e := es[..|es| - 1], es[|es| - 1];
    var r := After(rules, test, New(test), front);
    if r.phase.Terminal() {
      SettledStep(rules, test, r, e);
      k := PassedHasGrounds(rules, test, front);
      assert es[..k] == front[..k];
    } else {
      k := |es|;
      assert es[..k] == es;
      OpenTracks(rules, test, front);
      if e.Finish? {
        FinishOnGrounds(rules, test, Outcomes(front), r, e.parsed, e.limit);
      } else {
        QuietStep(rules, test, r, e);
      }
    }
  }

  lemma SettledStep(rules: Rules, test: Test, r: Result, e: Event)
    requires r.phase.Terminal()
    ensures Step(rules, test, r, e) == r
  {
  }

  lemma QuietStep(rules: Rules, test: Test, r: Result, e: Event)
    requires e.Begin? || e.Sample?
    ensures Step(rules, test, r, e).phase == r.phase
  {
  }
}
