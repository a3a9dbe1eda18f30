/** Thresholds applied to measurements, failing closed. */
module Verdict {

  /** A reading: a finite number, or text no finite number can be read from. */
  datatype Value = Num(x: real) | Bad(raw: string)

  type Metrics = map<string, Value>

  datatype Comparison = GTE | LTE | EQ | NEQ | Unknown(op: string)

  datatype Threshold = Threshold(metric: string, comparison: Comparison, value: Value, ifMeasurable: bool)

  /** Why a threshold was violated. Only Unsatisfied is evidence about the hardware. */
  datatype Kind = Unsatisfied | NotReported | NotFinite | Contradictory | UnmeasurableRequired | BadThreshold

  datatype Gate = Satisfied | NotApplied | Violated(kind: Kind)

  /** An unknown comparison is never satisfied. */
  predicate Compare(got: real, op: Comparison, want: real) {
    match op
    case GTE => got >= want
    case LTE => got <= want
    case EQ => got == want
    case NEQ => got != want
    case Unknown(_) => false
  }

  /** One threshold against one execution's report. */
  function Judge(metrics: Metrics, unmeasurable: set<string>, th: Threshold): Gate {
    if th.metric in unmeasurable then
      if th.metric in metrics then Violated(Contradictory)
      else if th.ifMeasurable then NotApplied
      else Violated(UnmeasurableRequired)
    else if th.metric !in metrics then Violated(NotReported)
    else if metrics[th.metric].Bad? then Violated(NotFinite)
    else if th.value.Bad? then Violated(BadThreshold)
    else if !Compare(metrics[th.metric].x, th.comparison, th.value.x) then Violated(Unsatisfied)
    else Satisfied
  }

  predicate Passes(metrics: Metrics, unmeasurable: set<string>, ths: seq<Threshold>) {
    forall i :: 0 <= i < |ths| ==> !Judge(metrics, unmeasurable, ths[i]).Violated?
  }

  /**
    What evaluation reports, by threshold index. Every threshold is evaluated; the
    not-evaluated list alone is cut off at the first violation.
  */
  datatype Outcome = Outcome(violated: set<nat>, applied: set<nat>, notEvaluated: set<nat>)

  function Evaluate(metrics: Metrics, unmeasurable: set<string>, ths: seq<Threshold>): Outcome {
    var violated := set i: nat | i < |ths| && Judge(metrics, unmeasurable, ths[i]).Violated?;
    Outcome(
      violated,
      set i: nat | i < |ths| && Judge(metrics, unmeasurable, ths[i]).Satisfied?,
      set i: nat | i < |ths| && Judge(metrics, unmeasurable, ths[i]).NotApplied? && forall k :: k in violated ==> i < k)
  }

  /** A reading is there, nobody declared it unmeasurable, and reading and bar are both numbers. */
  predicate Measured(metrics: Metrics, unmeasurable: set<string>, th: Threshold) {
    th.metric in metrics && th.metric !in unmeasurable && metrics[th.metric].Num? && th.value.Num?
  }

  /** The reading is on the right side of the bar. */
  predicate Holds(metrics: Metrics, unmeasurable: set<string>, th: Threshold) {
    && Measured(metrics, unmeasurable, th)
    && var got, want := metrics[th.metric].x, th.value.x;
       || (th.comparison == GTE && got >= want)
       || (th.comparison == LTE && got <= want)
       || (th.comparison == EQ && got == want)
       || (th.comparison == NEQ && got != want)
  }

  /** The test allows this metric to go unmeasured, and the runner said it could not measure it. */
  predicate Waived(metrics: Metrics, unmeasurable: set<string>, th: Threshold) {
    th.ifMeasurable && th.metric in unmeasurable && th.metric !in metrics
  }

  /**
    Gates fail closed: a report passes exactly when every threshold has a finite reading on
    the right side of a finite bar, or is one the test waives and the runner declared
    unmeasurable. Nothing missing, contradictory, unreadable or unknown ever passes.
  */
  lemma FailsClosed(metrics: Metrics, unmeasurable: set<string>, ths: seq<Threshold>)
    ensures Passes(metrics, unmeasurable, ths) <==>
      forall i :: 0 <= i < |ths| ==> Holds(metrics, unmeasurable, ths[i]) || Waived(metrics, unmeasurable, ths[i])
  {
  }

  /** Only a measurement on the wrong side is evidence about the hardware. */
  lemma EvidenceIsMeasured(metrics: Metrics, unmeasurable: set<string>, th: Threshold)
    ensures Judge(metrics, unmeasurable, th) == Violated(Unsatisfied) <==>
      Measured(metrics, unmeasurable, th) && !Holds(metrics, unmeasurable, th)
  {
  }

  /** Waived, with nothing before it missed. */
  predicate SetAside(metrics: Metrics, unmeasurable: set<string>, ths: seq<Threshold>, i: nat) {
    && i < |ths| && Waived(metrics, unmeasurable, ths[i])
    && forall k :: 0 <= k < i ==> Holds(metrics, unmeasurable, ths[k]) || Waived(metrics, unmeasurable, ths[k])
  }

  /** What evaluation reports: the thresholds not met, those met by a reading, and the waived ones before the first not met. */
  lemma EvaluateExactly(metrics: Metrics, unmeasurable: set<string>, ths: seq<Threshold>)
    ensures var out := Evaluate(metrics, unmeasurable, ths);
            && (forall i: nat :: i in out.violated <==> i < |ths| && !Holds(metrics, unmeasurable, ths[i]) && !Waived(metrics, unmeasurable, ths[i]))
            && (forall i: nat :: i in out.applied <==> i < |ths| && Holds(metrics, unmeasurable, ths[i]))
            && (forall i: nat :: i in out.notEvaluated <==> SetAside(metrics, unmeasurable, ths, i))
  {
    var out := Evaluate(metrics, unmeasurable, ths);
    forall i: nat ensures i in out.notEvaluated <==> SetAside(metrics, unmeasurable, ths, i) {
      if i in out.notEvaluated {
        forall k | 0 <= k < i ensures Holds(metrics, unmeasurable, ths[k]) || Waived(metrics, unmeasurable, ths[k]) {
          assert k !in out.violated;
        }
      } else if i < |ths| && Waived(metrics, unmeasurable, ths[i]) {
        assert exists k: nat :: k in out.violated && k <= i;
      }
    }
  }
}
