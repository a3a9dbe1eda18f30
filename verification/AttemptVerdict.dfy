/**
  When a test settles and on what grounds: an independent account of the deciding
  execution, and the proof that openings and checkpoints never touch it.
*/
module AttemptVerdict {
  import opened Base
  import opened Verdict
  import opened Soak
  import opened Attempts
  import opened AttemptHistory

  // ---------------------------------------------------------------- the account, from outcomes alone

  function OutcomePhase(test: Test, parsed: Parsed): Phase {
    AttemptOutcome(test, parsed).phase
  }

  function Count(test: Test, ps: seq<Parsed>, phase: Phase): (n: nat)
    ensures n <= |ps|
  {
    if ps == [] then 0
    else Count(test, ps[..|ps| - 1], phase) + (if OutcomePhase(test, ps[|ps| - 1]) == phase then 1 else 0)
  }

  /** The reports of the executions that exited cleanly. */
  function Clean(test: Test, ps: seq<Parsed>): (segs: seq<Segment>)
    ensures |segs| == Count(test, ps, Passed)
  {
    if ps == [] then []
    else
      var p := ps[|ps| - 1];
      Clean(test, ps[..|ps| - 1]) + (if OutcomePhase(test, p).Passed? then [Segment(p.metrics, p.unmeasurable)] else [])
  }

  function Gathered(rules: Rules, test: Test, ps: seq<Parsed>): Total {
    AddAll(rules, EMPTY, Clean(test, ps))
  }

  ghost predicate Condemned(rules: Rules, test: Test, total: Total) {
    exists i :: 0 <= i < |test.thresholds| && Provable(rules, total, test.thresholds[i])
  }

  /** What the last of these executions decides, if it decides. */
  ghost function Decision(rules: Rules, test: Test, limit: nat, ps: seq<Parsed>): Option<Phase>
    requires ps != []
  {
    match OutcomePhase(test, ps[|ps| - 1])
    case Error => if Count(test, ps, Error) == limit + 1 then Some(Error) else None
    case Passed =>
      if SegmentsRequired(test.soak) <= 0 then
        if Count(test, ps, Passed) == RepeatsRequired(test) then Some(Passed) else None
      else
        var total := Gathered(rules, test, ps);
        if Count(test, ps, Passed) == SegmentsRequired(test.soak) then
          Some(if Passes(total.metrics, total.unmeasurable, test.thresholds) then Passed else Failed)
        else if test.soak.abortEarly && Condemned(rules, test, total) then Some(Failed)
        else None
    case other => Some(other)
  }

  /** The k-th execution is the first to decide. */
  ghost predicate DecidedAt(rules: Rules, test: Test, limit: nat, ps: seq<Parsed>, k: nat) {
    && 0 < k <= |ps|
    && Decision(rules, test, limit, ps[..k]).Some?
    && forall j :: 0 < j < k ==> Decision(rules, test, limit, ps[..j]).None?
  }

  // ---------------------------------------------------------------- the machine on the same outcomes

  function Play(rules: Rules, test: Test, limit: int, ps: seq<Parsed>): Result {
    if ps == [] then New(test)
    else Step(rules, test, Play(rules, test, limit, ps[..|ps| - 1]), Finish(ps[|ps| - 1], limit))
  }

  /** A result that has taken all of these outcomes and is still open. */
  predicate Tracks(rules: Rules, test: Test, ps: seq<Parsed>, r: Result) {
    && r.phase.Running?
    && HistoryOk(r)
    && NextNumber(r.attempts) == |ps| + 1
    && r.repeatsRequired == RepeatsRequired(test)
    && r.segmentsRequired == SegmentsRequired(test.soak)
    && r.errorRetries == Count(test, ps, Error)
    && (if r.segmentsRequired > 0
        then r.segmentsCompleted == Count(test, ps, Passed) && Total(r.aggregated, r.unmeasurable) == Gathered(rules, test, ps)
        else r.repeatsCompleted == Count(test, ps, Passed))
  }

  lemma GatheredSnoc(rules: Rules, test: Test, ps: seq<Parsed>, p: Parsed)
    ensures Gathered(rules, test, ps + [p])
         == if OutcomePhase(test, p).Passed? then AddSegment(rules, Gathered(rules, test, ps), Segment(p.metrics, p.unmeasurable))
            else Gathered(rules, test, ps)
    ensures forall phase :: Count(test, ps + [p], phase) == Count(test, ps, phase) + (if OutcomePhase(test, p) == phase then 1 else 0)
  {
    assert (ps + [p])[..|ps|] == ps;
    AddAllSnoc(rules, EMPTY, Clean(test, ps), Segment(p.metrics, p.unmeasurable));
    assert Clean(test, ps) + [] == Clean(test, ps);
  }

  /** segmentVerdict, read through the aggregate. */
  lemma SegmentVerdictMeans(rules: Rules, test: Test, r: Result)
    ensures var total := Total(r.aggregated, r.unmeasurable);
            match SegmentVerdict(rules, test, r)
            case None => r.segmentsCompleted < r.segmentsRequired && !(test.soak.abortEarly && Condemned(rules, test, total))
            case Some(v) =>
              if r.segmentsCompleted >= r.segmentsRequired
              then v.phase == if Passes(r.aggregated, r.unmeasurable, test.thresholds) then Passed else Failed
              else v.phase.Failed? && test.soak.abortEarly && Condemned(rules, test, total)
  {
    var total := Total(r.aggregated, r.unmeasurable);
    var provable := ProvableSet(rules, total, test.thresholds);
    hide Provable, GateOutcome;
    if Condemned(rules, test, total) {
      var i: nat :| i < |test.thresholds| && Provable(rules, total, test.thresholds[i]);
      assert i in provable;
    }
  }

  /** A clean exit of an open result, unsegmented. */
  lemma RepeatCounts(rules: Rules, test: Test, r: Result, p: Parsed, limit: int)
    requires HistoryOk(r) && r.phase.Running? && r.segmentsRequired <= 0 && OutcomePhase(test, p).Passed?
    ensures var c := Completed(rules, test, limit, r, NextNumber(r.attempts), p);
            && c.repeatsCompleted == r.repeatsCompleted + 1
            && c.phase == if c.repeatsCompleted >= r.repeatsRequired then Passed else Running
  {
    RecordedKeeps(test, r, p);
    hide HistoryOk, Recorded, AttemptOutcome;
  }

  /** A clean window of an open soak. */
  lemma WindowCounts(rules: Rules, test: Test, r: Result, p: Parsed, limit: int)
    requires HistoryOk(r) && r.phase.Running? && r.segmentsRequired > 0 && OutcomePhase(test, p).Passed?
    ensures var c := Completed(rules, test, limit, r, NextNumber(r.attempts), p);
            var total := AddSegment(rules, Total(r.aggregated, r.unmeasurable), Segment(p.metrics, p.unmeasurable));
            && c.segmentsCompleted == r.segmentsCompleted + 1
            && c.aggregated == total.metrics
            && c.unmeasurable == total.unmeasurable
            && c.phase == if c.segmentsCompleted >= r.segmentsRequired
                          then (if Passes(total.metrics, total.unmeasurable, test.thresholds) then Passed else Failed)
                          else if test.soak.abortEarly && Condemned(rules, test, total) then Failed else Running
  {
    RecordedFrame(test, r, p);
    WindowEnd(rules, test, r, p, limit);
    var folded := Folded(rules, Recorded(test, r, NextNumber(r.attempts), p), p);
    SegmentVerdictMeans(rules, test, folded);
    hide HistoryOk, Recorded, Completed, AttemptOutcome, AddSegment, SegmentVerdict, Passes, Condemned;
  }

  /** An errored execution measured nothing: it moves no counter but the retries. */
  lemma ErrorCounts(rules: Rules, test: Test, r: Result, p: Parsed, limit: int)
    requires HistoryOk(r) && r.phase.Running? && OutcomePhase(test, p).Error?
    ensures var c := Completed(rules, test, limit, r, NextNumber(r.attempts), p);
            && c.repeatsCompleted == r.repeatsCompleted
            && c.segmentsCompleted == r.segmentsCompleted
            && c.aggregated == r.aggregated
            && (if r.errorRetries < limit
                then c.phase.Running? && c.errorRetries == r.errorRetries + 1 && c.unmeasurable == r.unmeasurable && c.evidence == r.evidence
                else c.phase.Error?)
            && (c.phase.Error? && r.segmentsRequired > 0 && r.aggregated != map[] ==>
                  c.metrics == r.aggregated && c.unmeasurable == r.unmeasurable)
  {
    RecordedFrame(test, r, p);
    ErrorEnd(rules, test, r, p, limit);
    hide HistoryOk, Recorded, AttemptOutcome, Completed;
  }

  /** An error is retried, or settles the test on the windows there are, or on nothing. */
  lemma ErrorEnd(rules: Rules, test: Test, r: Result, p: Parsed, limit: int)
    requires OutcomePhase(test, p).Error?
    ensures var n := NextNumber(r.attempts);
            var rec, j := Recorded(test, r, n, p), AttemptOutcome(test, p);
            Completed(rules, test, limit, r, n, p) ==
              if r.errorRetries < limit then rec.(errorRetries := rec.errorRetries + 1)
              else if r.segmentsRequired > 0 && r.aggregated != map[] then Settled(rec, Error, rec.aggregated, NO_EVIDENCE, rec.unmeasurable)
              else Settled(rec, Error, p.metrics, j.evidence, j.unmeasurable)
  {
    RecordedFrame(test, r, p);
    hide Recorded, AttemptOutcome, Folded, SegmentVerdict, Settled;
  }

  /** Still owed something under these bounds. */
  predicate Owing(r: Result, limit: nat) {
    && r.errorRetries <= limit
    && if r.segmentsRequired > 0 then r.segmentsCompleted < r.segmentsRequired else r.repeatsCompleted < r.repeatsRequired
  }

  /** One more outcome, while nothing before it decided. */
  lemma TracksStep(rules: Rules, test: Test, limit: nat, ps: seq<Parsed>, p: Parsed, r: Result)
    requires Tracks(rules, test, ps, r) && Owing(r, limit)
    ensures var c := Step(rules, test, r, Finish(p, limit));
            && NextNumber(c.attempts) == |ps| + 2
            && match Decision(rules, test, limit, ps + [p])
               case Some(phase) => c.phase == phase && phase.Terminal()
               case None => Tracks(rules, test, ps + [p], c) && Owing(c, limit)
  {
    hide HistoryOk, Recorded, Completed, AttemptOutcome, AddSegment, Gathered, Count, Condemned, Passes, NextNumber;
    GatheredSnoc(rules, test, ps, p);
    NumbersMoveOn(rules, test, r, Finish(p, limit));
    FinishKeeps(rules, test, r, p, limit);
    RecordedKeeps(test, r, p);
    CompletedShape(rules, test, r, p, limit);
    match OutcomePhase(test, p)
    case Passed =>
      if r.segmentsRequired > 0 { WindowCounts(rules, test, r, p, limit); }
      else { RepeatCounts(rules, test, r, p, limit); }
    case Error =>
      ErrorCounts(rules, test, r, p, limit);
    case _ =>
  }

  // ---------------------------------------------------------------- the settling law

  lemma {:induction false} PlayTracks(rules: Rules, test: Test, limit: nat, ps: seq<Parsed>)
    requires forall j :: 0 < j <= |ps| ==> Decision(rules, test, limit, ps[..j]).None?
    ensures var r := Play(rules, test, limit, ps); Tracks(rules, test, ps, r) && Owing(r, limit)
  {
    hide Decision, Step;
    if ps != [] {
      hide Tracks, Owing;
      var front, p := ps[..|ps| - 1], ps[|ps| - 1];
      forall j | 0 < j <= |front| ensures Decision(rules, test, limit, front[..j]).None? { assert front[..j] == ps[..j]; }
      PlayTracks(rules, test, limit, front);
      assert ps == front + [p] && ps == ps[..|ps|];
      TracksStep(rules, test, limit, front, p, Play(rules, test, limit, front));
    }
  }

  lemma {:induction false} PlayStays(rules: Rules, test: Test, limit: int, ps: seq<Parsed>, k: nat)
    requires k <= |ps| && Play(rules, test, limit, ps[..k]).phase.Terminal()
    ensures Play(rules, test, limit, ps) == Play(rules, test, limit, ps[..k])
    decreases |ps|
  {
    if k == |ps| {
      assert ps[..k] == ps;
    } else {
      assert ps[..|ps| - 1][..k] == ps[..k];
      PlayStays(rules, test, limit, ps[..|ps| - 1], k);
    }
  }

  /**
    For every sequence of outcomes under a fixed retry limit, a test settles at the
    first Fail or Skip, the Error after the last retry, or the last required pass,
    whichever comes first, with the phase that execution decides; it stays open
    exactly as long as none of these has come; and the deciding execution is the
    last attempt on record.
  */
  lemma SettlesAtTheFirstDecision(rules: Rules, test: Test, limit: nat, ps: seq<Parsed>)
    ensures Play(rules, test, limit, ps).phase.Terminal() <==> exists k: nat :: DecidedAt(rules, test, limit, ps, k)
    ensures forall k: nat :: DecidedAt(rules, test, limit, ps, k) ==>
      var r := Play(rules, test, limit, ps);
      && r == Play(rules, test, limit, ps[..k])
      && Some(r.phase) == Decision(rules, test, limit, ps[..k])
      && NextNumber(r.attempts) == k + 1
  {
    forall k: nat | DecidedAt(rules, test, limit, ps, k)
      ensures var r := Play(rules, test, limit, ps);
              && r.phase.Terminal()
              && r == Play(rules, test, limit, ps[..k])
              && Some(r.phase) == Decision(rules, test, limit, ps[..k])
              && NextNumber(r.attempts) == k + 1
    {
      DecidedPlay(rules, test, limit, ps, k);
    }
    if forall k: nat :: !DecidedAt(rules, test, limit, ps, k) {
      NeverDecided(rules, test, limit, ps, |ps|);
      PlayTracks(rules, test, limit, ps);
    }
  }

  lemma DecidedPlay(rules: Rules, test: Test, limit: nat, ps: seq<Parsed>, k: nat)
    requires DecidedAt(rules, test, limit, ps, k)
    ensures var r := Play(rules, test, limit, ps);
            && r.phase.Terminal()
            && r == Play(rules, test, limit, ps[..k])
            && Some(r.phase) == Decision(rules, test, limit, ps[..k])
            && NextNumber(r.attempts) == k + 1
  {
    hide Decision, Tracks, Owing, Step;
    var front, p := ps[..k - 1], ps[k - 1];
    forall j | 0 < j <= |front| ensures Decision(rules, test, limit, front[..j]).None? { assert front[..j] == ps[..j]; }
    PlayTracks(rules, test, limit, front);
    assert ps[..k] == front + [p] && ps[..k][..k - 1] == front;
    TracksStep(rules, test, limit, front, p, Play(rules, test, limit, front));
    assert Play(rules, test, limit, ps[..k]) == Step(rules, test, Play(rules, test, limit, front), Finish(p, limit));
    PlayStays(rules, test, limit, ps, k);
  }

  lemma {:induction false} NeverDecided(rules: Rules, test: Test, limit: nat, ps: seq<Parsed>, n: nat)
    requires n <= |ps| && forall k: nat :: !DecidedAt(rules, test, limit, ps, k)
    ensures forall j :: 0 < j <= n ==> Decision(rules, test, limit, ps[..j]).None?
  {
    hide Decision;
    if n > 0 {
      NeverDecided(rules, test, limit, ps, n - 1);
      assert !DecidedAt(rules, test, limit, ps, n);
    }
  }

  // ---------------------------------------------------------------- what a pass rests on

  /** One execution met every gate of its test on its own report. */
  predicate Cleared(test: Test, p: Parsed) {
    && p.exit.ExitPass?
    && Passes(p.metrics, p.unmeasurable, test.thresholds)
    && (test.thresholds != [] ==> !p.ReportedNothing())
  }

  /** Enough windows to cover the duration, and every gate decided on all they measured. */
  predicate SoakCleared(rules: Rules, test: Test, ps: seq<Parsed>) {
    var total := Gathered(rules, test, ps);
    && Count(test, ps, Passed) * SegmentSeconds(test.soak) >= Duration(test.soak)
    && Passes(total.metrics, total.unmeasurable, test.thresholds)
  }

  lemma {:induction false} CountCleared(test: Test, ps: seq<Parsed>)
    requires SegmentsRequired(test.soak) <= 0
    ensures Count(test, ps, Passed) == |set i | 0 <= i < |ps| && Cleared(test, ps[i])|
  {
    if ps != [] {
      var n := |ps| - 1;
      var front := ps[..n];
      CountCleared(test, front);
      var before := set i | 0 <= i < |front| && Cleared(test, front[i]);
      var now := set i | 0 <= i < |ps| && Cleared(test, ps[i]);
      assert OutcomePhase(test, ps[n]).Passed? <==> Cleared(test, ps[n]);
      assert now == if Cleared(test, ps[n]) then before + {n} else before;
    }
  }

  /**
    A test that ends Passed saw no Fail and no Skip and no more Errors than it may
    retry; unsegmented, every required execution cleared every gate by itself;
    segmented, its windows cover the duration and clear every gate together.
  */
  lemma PassedRests(rules: Rules, test: Test, limit: nat, ps: seq<Parsed>) returns (k: nat)
    requires Play(rules, test, limit, ps).phase.Passed?
    ensures 0 < k <= |ps|
    ensures forall i :: 0 <= i < k ==> OutcomePhase(test, ps[i]).Passed? || OutcomePhase(test, ps[i]).Error?
    ensures Count(test, ps[..k], Error) <= limit
    ensures if SegmentsRequired(test.soak) > 0 then SoakCleared(rules, test, ps[..k])
            else |set i | 0 <= i < k && Cleared(test, ps[..k][i])| == RepeatsRequired(test)
  {
    hide AttemptOutcome, HistoryOk, Play, Gathered, Passes, Decision, Count, Cleared, SoakCleared, OutcomePhase;
    SettlesAtTheFirstDecision(rules, test, limit, ps);
    k :| DecidedAt(rules, test, limit, ps, k);
    var front := ps[..k - 1];
    forall j | 0 < j <= |front| ensures Decision(rules, test, limit, front[..j]).None? { assert front[..j] == ps[..j]; }
    assert ps[..k][..k - 1] == front;
    PlayTracks(rules, test, limit, front);
    assert Count(test, front, Error) <= limit;
    forall i | 0 <= i < k ensures OutcomePhase(test, ps[i]).Passed? || OutcomePhase(test, ps[i]).Error? {
      assert ps[..i + 1][i] == ps[i];
      DecisionPhase(rules, test, limit, ps[..i + 1]);
    }
    PassingDecision(rules, test, limit, ps[..k]);
  }

  lemma DecisionPhase(rules: Rules, test: Test, limit: nat, ps: seq<Parsed>)
    requires ps != []
    ensures var d := Decision(rules, test, limit, ps); d.None? || d.value.Passed? ==>
              OutcomePhase(test, ps[|ps| - 1]).Passed? || OutcomePhase(test, ps[|ps| - 1]).Error?
  {
    hide AttemptOutcome, Gathered, Count;
  }

  lemma PassingDecision(rules: Rules, test: Test, limit: nat, ps: seq<Parsed>)
    requires ps != [] && Decision(rules, test, limit, ps) == Some(Passed)
    ensures Count(test, ps, Error) == Count(test, ps[..|ps| - 1], Error)
    ensures if SegmentsRequired(test.soak) > 0 then SoakCleared(rules, test, ps)
            else |set i | 0 <= i < |ps| && Cleared(test, ps[i])| == RepeatsRequired(test)
  {
    hide AttemptOutcome, Gathered, Passes;
    if SegmentsRequired(test.soak) > 0 {
      WindowsCoverDuration(test.soak);
    } else {
      CountCleared(test, ps);
    }
  }

  /** What an execution counts as: silence against an acceptance bar is an Error, and a window is never gated by itself. */
  lemma OutcomeExactly(test: Test, p: Parsed)
    ensures var silent := test.thresholds != [] && p.metrics == map[] && p.unmeasurable == {} && p.rejected == 0;
            var windowed := test.soak.segmentSeconds > 0;
            var gated := Passes(p.metrics, p.unmeasurable, test.thresholds);
            && (OutcomePhase(test, p).Passed? <==> p.exit.ExitPass? && !silent && (windowed || gated))
            && (OutcomePhase(test, p).Failed? <==> p.exit.ExitFail? || (p.exit.ExitPass? && !silent && !windowed && !gated))
            && (OutcomePhase(test, p).Error? <==> p.exit.ExitError? || (p.exit.ExitPass? && silent))
            && (OutcomePhase(test, p).Skipped? <==> p.exit.ExitSkip?)
  {
  }

  /**
    An early abort changes no verdict: however the soak had gone on to its last window,
    its gates would not all have passed.
  */
  lemma AbortChangesNoVerdict(rules: Rules, test: Test, limit: nat, ps: seq<Parsed>, more: seq<Segment>)
    requires ps != [] && Decision(rules, test, limit, ps) == Some(Failed) && OutcomePhase(test, ps[|ps| - 1]).Passed?
    requires Count(test, ps, Passed) < SegmentsRequired(test.soak)
    requires forall i :: 0 <= i < |test.thresholds| ==> CountsUp(rules, more, test.thresholds[i].metric)
    ensures test.soak.abortEarly
    ensures var end := AddAll(rules, EMPTY, Clean(test, ps) + more);
            !Passes(end.metrics, end.unmeasurable, test.thresholds)
  {
    hide AttemptOutcome, Passes, Count;
    var total := Gathered(rules, test, ps);
    assert Condemned(rules, test, total);
    var i :| 0 <= i < |test.thresholds| && Provable(rules, total, test.thresholds[i]);
    AbortIsSound(rules, Clean(test, ps), more, test.thresholds[i]);
    OneViolationFails(AddAll(rules, EMPTY, Clean(test, ps) + more), test.thresholds, i);
  }

  lemma OneViolationFails(total: Total, ths: seq<Threshold>, i: nat)
    requires i < |ths| && Judge(total.metrics, total.unmeasurable, ths[i]).Violated?
    ensures !Passes(total.metrics, total.unmeasurable, ths)
  {
  }

  // ---------------------------------------------------------------- what a completion and a checkpoint publish

  /** The evidence names the thresholds not met, those met by a reading, and the waived ones before the first not met. */
  ghost predicate Tells(e: Evidence, metrics: Metrics, unmeasurable: set<string>, ths: seq<Threshold>) {
    && (forall i: nat :: i in e.violated <==> i < |ths| && !Holds(metrics, unmeasurable, ths[i]) && !Waived(metrics, unmeasurable, ths[i]))
    && (forall i: nat :: i in e.applied <==> i < |ths| && Holds(metrics, unmeasurable, ths[i]))
    && (forall i: nat :: i in e.notEvaluated <==> SetAside(metrics, unmeasurable, ths, i))
  }

  lemma GateTells(metrics: Metrics, unmeasurable: set<string>, ths: seq<Threshold>)
    ensures Tells(GateOutcome(metrics, unmeasurable, ths).evidence, metrics, unmeasurable, ths)
    ensures GateOutcome(metrics, unmeasurable, ths).unmeasurable == unmeasurable
  {
    EvaluateExactly(metrics, unmeasurable, ths);
  }

  lemma RecordedReport(test: Test, r: Result, p: Parsed)
    requires HistoryOk(r) && !r.phase.Terminal()
    ensures var rec := Recorded(test, r, NextNumber(r.attempts), p);
            && rec.attempts != [] && LastOf(rec.attempts).metrics == p.metrics
            && rec.metrics == if p.metrics != map[] then p.metrics else r.metrics
  {
    OpenedKeeps(r);
    var o := Opened(r, NextNumber(r.attempts));
    var a := LastOf(o.attempts).(phase := AttemptOutcome(test, p).phase, metrics := p.metrics);
    MarkKeeps(o.attempts, o.truncated, a);
    hide Numbered, Tally, Short, Opened, AttemptOutcome, Truncated;
    TruncatedKeeps(o.(attempts := o.attempts[..|o.attempts| - 1] + [a]));
  }

  /** The gates of one execution's own report, where it is gated at all. */
  ghost predicate Gated(test: Test, p: Parsed) {
    && p.exit.ExitPass? && test.soak.segmentSeconds <= 0
    && !(test.thresholds != [] && p.metrics == map[] && p.unmeasurable == {} && p.rejected == 0)
  }

  /** Settled on the windows together: the last one, an early abort, or an error after some. */
  predicate OnTheWindows(test: Test, r: Result, p: Parsed) {
    r.segmentsRequired > 0 && (OutcomePhase(test, p).Passed? || (OutcomePhase(test, p).Error? && r.aggregated != map[]))
  }

  /**
    What a completion leaves to be read. The attempt carries its number, outcome and report.
    An open result shows the aggregate of its soak, or else the newest report there is; a
    settled one shows what it was settled on, the aggregate or the last report, with the
    evidence of the gates that were applied to it and no other.
  */
  lemma CompletionPublishes(rules: Rules, test: Test, r: Result, p: Parsed, limit: int)
    requires HistoryOk(r) && r.phase.Running? && r.segmentsRequired == SegmentsRequired(test.soak)
    ensures var c := Completed(rules, test, limit, r, NextNumber(r.attempts), p);
            && c.attempts != []
            && LastOf(c.attempts).number == NextNumber(r.attempts) && LastOf(c.attempts).phase == OutcomePhase(test, p)
            && LastOf(c.attempts).metrics == p.metrics
            && (c.phase.Running? ==>
                  && c.evidence == r.evidence
                  && c.metrics == (if OutcomePhase(test, p).Passed? && r.segmentsRequired > 0 && c.aggregated != map[] then c.aggregated
                                   else if p.metrics != map[] then p.metrics else r.metrics))
            && (c.phase.Terminal() ==> c.metrics == if OnTheWindows(test, r, p) then c.aggregated else p.metrics)
            && (c.phase.Terminal() && !OnTheWindows(test, r, p) ==> c.unmeasurable == p.unmeasurable)
            && (c.phase.Passed? && r.segmentsRequired > 0 ==> c.repeatsCompleted == r.repeatsRequired)
  {
    RecordedReport(test, r, p);
    RecordedKeeps(test, r, p);
    CompletedShape(rules, test, r, p, limit);
    hide HistoryOk, Recorded, Completed, AttemptOutcome, Numbered, Tally, Short;
    if OutcomePhase(test, p).Passed? && r.segmentsRequired > 0 {
      WindowPublishes(rules, test, r, p, limit);
    } else {
      OwnPublishes(rules, test, r, p, limit);
    }
  }

  lemma WindowPublishes(rules: Rules, test: Test, r: Result, p: Parsed, limit: int)
    requires HistoryOk(r) && r.phase.Running? && OutcomePhase(test, p).Passed? && r.segmentsRequired > 0
    ensures var c := Completed(rules, test, limit, r, NextNumber(r.attempts), p);
            && (c.phase.Running? ==>
                  && c.evidence == r.evidence
                  && c.metrics == if c.aggregated != map[] then c.aggregated else if p.metrics != map[] then p.metrics else r.metrics)
            && (c.phase.Terminal() ==> c.metrics == c.aggregated)
            && (c.phase.Passed? ==> c.repeatsCompleted == r.repeatsRequired)
  {
    RecordedReport(test, r, p);
    RecordedFrame(test, r, p);
    WindowEnd(rules, test, r, p, limit);
    SegmentVerdictMeans(rules, test, Folded(rules, Recorded(test, r, NextNumber(r.attempts), p), p));
    hide HistoryOk, Recorded, Completed, AttemptOutcome, AddSegment, SegmentVerdict, Passes, Condemned;
  }

  lemma OwnPublishes(rules: Rules, test: Test, r: Result, p: Parsed, limit: int)
    requires HistoryOk(r) && r.phase.Running? && !(OutcomePhase(test, p).Passed? && r.segmentsRequired > 0)
    ensures var c := Completed(rules, test, limit, r, NextNumber(r.attempts), p);
            && (c.phase.Running? ==> c.evidence == r.evidence && c.metrics == if p.metrics != map[] then p.metrics else r.metrics)
            && (c.phase.Terminal() ==> c.metrics == if OnTheWindows(test, r, p) then c.aggregated else p.metrics)
            && (c.phase.Terminal() && !OnTheWindows(test, r, p) ==> c.unmeasurable == p.unmeasurable)
            && (c.phase.Passed? ==> r.segmentsRequired <= 0)
  {
    RecordedReport(test, r, p);
    RecordedFrame(test, r, p);
    OwnEnd(rules, test, r, p, limit);
    hide HistoryOk, Recorded, AttemptOutcome, Completed;
  }

  /** Without a window to fold, a completion settles on the report, on the aggregate after an error, or goes on. */
  lemma OwnEnd(rules: Rules, test: Test, r: Result, p: Parsed, limit: int)
    requires r.phase.Running? && !(OutcomePhase(test, p).Passed? && r.segmentsRequired > 0)
    ensures var n := NextNumber(r.attempts);
            var rec, c, j := Recorded(test, r, n, p), Completed(rules, test, limit, r, n, p), AttemptOutcome(test, p);
            || c == rec.(repeatsCompleted := c.repeatsCompleted, errorRetries := c.errorRetries)
            || (!OnTheWindows(test, r, p)
                && c == Settled(rec.(repeatsCompleted := c.repeatsCompleted), j.phase, p.metrics, j.evidence, j.unmeasurable))
            || (OnTheWindows(test, r, p) && c == Settled(rec, Error, rec.aggregated, NO_EVIDENCE, rec.unmeasurable))
  {
    RecordedFrame(test, r, p);
    hide Recorded, AttemptOutcome, Folded, SegmentVerdict;
  }

  /** And the evidence it settles on. */
  lemma CompletionEvidence(rules: Rules, test: Test, r: Result, p: Parsed, limit: int)
    requires HistoryOk(r) && r.phase.Running? && r.segmentsRequired == SegmentsRequired(test.soak)
    ensures var c := Completed(rules, test, limit, r, NextNumber(r.attempts), p);
            c.phase.Terminal() ==>
              if r.segmentsRequired > 0 && OutcomePhase(test, p).Passed? then
                if c.segmentsCompleted >= r.segmentsRequired then Tells(c.evidence, c.aggregated, c.unmeasurable, test.thresholds)
                else c.evidence == Evidence(set i: nat | i < |test.thresholds| && Provable(rules, Total(c.aggregated, c.unmeasurable), test.thresholds[i]), {}, {})
              else if Gated(test, p) then Tells(c.evidence, p.metrics, p.unmeasurable, test.thresholds)
              else c.evidence == Evidence({}, {}, {})
  {
    hide HistoryOk, Completed, AttemptOutcome, Tells, Provable;
    if r.segmentsRequired > 0 && OutcomePhase(test, p).Passed? {
      WindowEvidence(rules, test, r, p, limit);
    } else {
      OwnEvidence(rules, test, r, p, limit);
      OutcomeTells(test, p);
      WindowsCoverDuration(test.soak);
      hide SegmentsRequired, OutcomePhase;
    }
  }

  lemma WindowEvidence(rules: Rules, test: Test, r: Result, p: Parsed, limit: int)
    requires HistoryOk(r) && r.phase.Running? && r.segmentsRequired > 0 && OutcomePhase(test, p).Passed?
    ensures var c := Completed(rules, test, limit, r, NextNumber(r.attempts), p);
            c.phase.Terminal() ==>
              if c.segmentsCompleted >= r.segmentsRequired then Tells(c.evidence, c.aggregated, c.unmeasurable, test.thresholds)
              else c.evidence == Evidence(set i: nat | i < |test.thresholds| && Provable(rules, Total(c.aggregated, c.unmeasurable), test.thresholds[i]), {}, {})
  {
    var folded := Folded(rules, Recorded(test, r, NextNumber(r.attempts), p), p);
    RecordedFrame(test, r, p);
    FoldedFrame(rules, Recorded(test, r, NextNumber(r.attempts), p), p);
    WindowEnd(rules, test, r, p, limit);
    VerdictTells(rules, test, folded);
    hide HistoryOk, Recorded, Completed, Folded, SegmentVerdict, AttemptOutcome, Tells, Provable;
  }

  lemma FoldedFrame(rules: Rules, rec: Result, p: Parsed)
    ensures var f := Folded(rules, rec, p);
            f == rec.(segmentsCompleted := rec.segmentsCompleted + 1, aggregated := f.aggregated, unmeasurable := f.unmeasurable, metrics := f.metrics)
  {
    hide AddSegment;
  }

  /** A folded window goes on as it is, or is settled by what the windows say. */
  lemma WindowEnd(rules: Rules, test: Test, r: Result, p: Parsed, limit: int)
    requires OutcomePhase(test, p).Passed? && r.segmentsRequired > 0
    ensures var n := NextNumber(r.attempts);
            var folded := Folded(rules, Recorded(test, r, n, p), p);
            Completed(rules, test, limit, r, n, p) ==
              match SegmentVerdict(rules, test, folded)
              case None => folded
              case Some(v) =>
                Settled(if v.phase.Passed? then folded.(repeatsCompleted := folded.repeatsRequired) else folded,
                        v.phase, folded.aggregated, v.evidence, v.unmeasurable)
  {
    RecordedFrame(test, r, p);
    hide Recorded, AttemptOutcome, Folded, SegmentVerdict, Settled;
  }

  lemma VerdictTells(rules: Rules, test: Test, r: Result)
    ensures var v := SegmentVerdict(rules, test, r);
            v.Some? ==>
              && v.value.unmeasurable == r.unmeasurable
              && if r.segmentsCompleted >= r.segmentsRequired then Tells(v.value.evidence, r.aggregated, r.unmeasurable, test.thresholds)
                 else v.value.evidence == Evidence(set i: nat | i < |test.thresholds| && Provable(rules, Total(r.aggregated, r.unmeasurable), test.thresholds[i]), {}, {})
  {
    GateTells(r.aggregated, r.unmeasurable, test.thresholds);
    hide Tells, Provable, GateOutcome;
  }

  lemma OwnEvidence(rules: Rules, test: Test, r: Result, p: Parsed, limit: int)
    requires HistoryOk(r) && r.phase.Running? && !(r.segmentsRequired > 0 && OutcomePhase(test, p).Passed?)
    ensures var c := Completed(rules, test, limit, r, NextNumber(r.attempts), p);
            c.phase.Terminal() ==> c.evidence == (if r.segmentsRequired > 0 && OutcomePhase(test, p).Error? && r.aggregated != map[]
                                                  then Evidence({}, {}, {}) else AttemptOutcome(test, p).evidence)
  {
    RecordedFrame(test, r, p);
    OwnEnd(rules, test, r, p, limit);
    hide HistoryOk, Recorded, AttemptOutcome, Completed;
  }

  /** Recording an outcome touches the history and the shown report, nothing else. */
  lemma RecordedFrame(test: Test, r: Result, p: Parsed)
    ensures var rec := Recorded(test, r, NextNumber(r.attempts), p);
            rec == r.(attempts := rec.attempts, truncated := rec.truncated, metrics := rec.metrics)
  {
    var open := Opened(r, NextNumber(r.attempts));
    assert open == r.(attempts := open.attempts);
    var n := |open.attempts| - 1;
    var a := open.attempts[n].(phase := AttemptOutcome(test, p).phase, metrics := p.metrics);
    hide AttemptOutcome, Opened, Truncated, NextNumber;
    TruncatedFrame(open.(attempts := open.attempts[..n] + [a]));
  }

  lemma TruncatedFrame(r: Result)
    requires r.attempts != []
    ensures Truncated(r) == r.(attempts := Truncated(r).attempts, truncated := Truncated(r).truncated)
  {
    hide DropPassing, Surplus;
  }

  lemma OutcomeTells(test: Test, p: Parsed)
    ensures var e := AttemptOutcome(test, p).evidence;
            if Gated(test, p) then Tells(e, p.metrics, p.unmeasurable, test.thresholds) else e == Evidence({}, {}, {})
  {
    if Gated(test, p) { GateTells(p.metrics, p.unmeasurable, test.thresholds); }
    hide Tells, Passes;
  }

  /**
    What a checkpoint leaves to be read. Outside a soak it shows the sample; in one, each
    metric as it would be if the window closed now, the sample counted with the windows before
    it. The open attempt carries the sample and its time; nothing else moves.
  */
  lemma SampleShows(rules: Rules, r: Result, segs: seq<Segment>, at: int, metrics: Metrics)
    requires r.phase.Running? && metrics != map[]
    requires r.segmentsRequired > 0 ==> Total(r.aggregated, r.unmeasurable) == AddAll(rules, EMPTY, segs)
    ensures var s := Sampled(rules, r, at, metrics);
            && s.sampledAt == Some(at)
            && s == r.(metrics := s.metrics, sampledAt := s.sampledAt, attempts := s.attempts)
            && |s.attempts| == |r.attempts|
            && (forall i :: 0 <= i < |r.attempts| ==>
                  s.attempts[i] == if i == |r.attempts| - 1 && !r.attempts[i].phase.Terminal()
                                   then r.attempts[i].(metrics := metrics, sampledAt := Some(at)) else r.attempts[i])
            && (r.segmentsRequired <= 0 ==> s.metrics == metrics)
            && (r.segmentsRequired > 0 ==> forall m ::
                  var seen := Readings(segs + [Segment(metrics, {})], m);
                  (m in s.metrics <==> seen != []) && (m in s.metrics ==> IsAggregate(rules(m), seen, s.metrics[m])))
  {
    if r.segmentsRequired > 0 {
      var all := segs + [Segment(metrics, {})];
      AddAllSnoc(rules, EMPTY, segs, Segment(metrics, {}));
      assert Fold(rules, map[], metrics) == metrics;
      var shown := AddAll(rules, EMPTY, all).metrics;
      assert shown == Fold(rules, r.aggregated, metrics);
      forall m ensures var seen := Readings(all, m); (m in shown <==> seen != []) && (m in shown ==> IsAggregate(rules(m), seen, shown[m])) {
        AggregateLaw(rules, all, m);
      }
    }
    hide Fold, AddAll, Readings, IsAggregate;
  }

  /** Nothing is sampled from a report without readings, or into a settled result. */
  lemma NothingSampled(rules: Rules, r: Result, at: int, metrics: Metrics)
    requires r.phase.Terminal() || metrics == map[]
    ensures Sampled(rules, r, at, metrics) == r
  {
  }

  /** Stopping: an open result takes the phase, and so does its open attempt; a settled one stays. */
  lemma StopSays(r: Result, phase: Phase)
    ensures var s := Stopped(r, phase);
            && (r.phase.Terminal() ==> s == r)
            && (!r.phase.Terminal() ==>
                  && s == r.(phase := phase, attempts := s.attempts) && |s.attempts| == |r.attempts|
                  && forall i :: 0 <= i < |r.attempts| ==>
                       s.attempts[i] == if i == |r.attempts| - 1 && !r.attempts[i].phase.Terminal() then r.attempts[i].(phase := phase) else r.attempts[i])
  {
  }

  // ---------------------------------------------------------------- what a recorded pass stands for

  /** The counters are true, and a pass is backed by them. */
  predicate Earned(test: Test, r: Result) {
    && r.repeatsRequired == RepeatsRequired(test)
    && r.segmentsRequired == SegmentsRequired(test.soak)
    && (r.segmentsRequired <= 0 ==> Tally(r.attempts, Passed) == r.repeatsCompleted)
    && (r.phase.Passed? ==>
          if r.segmentsRequired > 0
          then r.segmentsCompleted >= r.segmentsRequired && Passes(r.aggregated, r.unmeasurable, test.thresholds)
          else r.repeatsCompleted >= r.repeatsRequired)
  }

  lemma OpenedTally(r: Result, phase: Phase)
    requires !phase.Running?
    ensures Tally(Opened(r, NextNumber(r.attempts)).attempts, phase) == Tally(r.attempts, phase)
  {
    if !InProgress(r.attempts) {
      TallyConcat(r.attempts, [LastOf(Opened(r, NextNumber(r.attempts)).attempts)], phase);
    }
  }

  lemma ReplacedTally(s: seq<Attempt>, a: Attempt, phase: Phase)
    requires s != [] && LastOf(s).phase != phase
    ensures Tally(s[..|s| - 1] + [a], phase) == Tally(s, phase) + (if a.phase == phase then 1 else 0)
  {
    var n := |s| - 1;
    assert s == s[..n] + [s[n]];
    TallyConcat(s[..n], [s[n]], phase);
    TallyConcat(s[..n], [a], phase);
  }

  lemma RecordedTally(test: Test, r: Result, p: Parsed)
    requires HistoryOk(r) && !r.phase.Terminal() && r.segmentsRequired <= 0
    ensures var rec := Recorded(test, r, NextNumber(r.attempts), p);
            Tally(rec.attempts, Passed) == Tally(r.attempts, Passed) + (if OutcomePhase(test, p).Passed? then 1 else 0)
  {
    OpenedKeeps(r);
    OpenedTally(r, Passed);
    var o := Opened(r, NextNumber(r.attempts));
    ReplacedTally(o.attempts, LastOf(o.attempts).(phase := OutcomePhase(test, p), metrics := p.metrics), Passed);
    hide Opened, Tally, AttemptOutcome, HistoryOk;
  }

  lemma FinishEarned(rules: Rules, test: Test, r: Result, p: Parsed, limit: int)
    requires HistoryOk(r) && Earned(test, r) && !r.phase.Terminal()
    ensures Earned(test, Completed(rules, test, limit, r, NextNumber(r.attempts), p))
  {
    hide HistoryOk, Recorded, Completed, AttemptOutcome, Passes, Tally, AddSegment;
    if r.segmentsRequired <= 0 { RecordedTally(test, r, p); }
    RecordedKeeps(test, r, p);
    CompletedShape(rules, test, r, p, limit);
    assert r.phase.Running? by { OpenIsRunning(r); }
    match OutcomePhase(test, p)
    case Passed =>
      if r.segmentsRequired > 0 { WindowCounts(rules, test, r, p, limit); } else { RepeatCounts(rules, test, r, p, limit); }
    case Error => ErrorCounts(rules, test, r, p, limit);
    case _ => VerdictCounts(rules, test, r, p, limit);
  }

  lemma OpenIsRunning(r: Result)
    requires HistoryOk(r) && !r.phase.Terminal()
    ensures r.phase.Running?
  {
  }

  /** A Fail or a Skip moves no counter. */
  lemma VerdictCounts(rules: Rules, test: Test, r: Result, p: Parsed, limit: int)
    requires HistoryOk(r) && r.phase.Running? && !OutcomePhase(test, p).Passed? && !OutcomePhase(test, p).Error?
    ensures Completed(rules, test, limit, r, NextNumber(r.attempts), p).repeatsCompleted == r.repeatsCompleted
  {
    RecordedKeeps(test, r, p);
    hide HistoryOk, Recorded, AttemptOutcome;
  }

  /** An opening, a sample or a completion keeps the history and the account. */
  lemma StepEarned(rules: Rules, test: Test, r: Result, e: Event)
    requires HistoryOk(r) && Earned(test, r) && (e.Begin? || e.Sample? || e.Finish?)
    ensures var r' := Step(rules, test, r, e);
            && HistoryOk(r')
            && Earned(test, r')
            && (r'.phase.Cancelled? ==> r.phase.Cancelled?)
  {
    StepKeeps(rules, test, r, e);
    if !r.phase.Terminal() {
      match e
      case Begin => OpenedTally(r, Passed); hide Tally, HistoryOk;
      case Sample(at, metrics) =>
        if InProgress(r.attempts) {
          ReplacedTally(r.attempts, LastOf(r.attempts).(metrics := metrics, sampledAt := Some(at)), Passed);
        }
        hide Tally, HistoryOk, Fold;
      case Finish(parsed, limit) =>
        FinishEarned(rules, test, r, parsed, limit);
        RecordedKeeps(test, r, parsed);
        CompletedShape(rules, test, r, parsed, limit);
        hide Completed, Recorded, AttemptOutcome, HistoryOk, Tally;
    }
  }
}
