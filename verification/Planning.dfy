/** Pinning a plan: names are result identity, and a unit that could never start is refused up front. */
module Planning {
  import opened Base
  import opened Soak
  import opened Attempts
  import opened Execution
  import opened RunProtocol

  ghost predicate NamesDistinct(tests: seq<Planned>) {
    forall i, j :: 0 <= i < j < |tests| ==> tests[i].name != tests[j].name
  }

  method FirstDuplicate(targets: seq<string>) returns (dup: Option<string>)
    ensures dup.None? <==> Distinct(targets)
    ensures dup.Some? ==> exists i, j :: 0 <= i < j < |targets| && targets[i] == targets[j] == dup.value
  {
    var seen: set<string> := {};
    for k := 0 to |targets|
      invariant forall n :: n in seen <==> n in targets[..k]
      invariant Distinct(targets[..k])
    {
      if targets[k] in seen {
        var i :| 0 <= i < k && targets[..k][i] == targets[k];
        assert targets[i] == targets[k];
        return Some(targets[k]);
      }
      seen := seen + {targets[k]};
      assert targets[..k + 1] == targets[..k] + [targets[k]];
    }
    assert targets[..|targets|] == targets;
    return None;
  }

  method ValidateTopology(t: Planned, targets: seq<string>, cap: int) returns (ok: bool)
    ensures ok <==> TopologyOk(t, targets, cap)
    ensures t.scope.PairScope? ==> (ok <==> |targets| == 2 && targets[0] != targets[1] && cap >= 2)
    ensures t.scope.GroupScope? ==> (ok <==>
              |targets| >= 2 && cap >= |targets| && t.speaksGroup && forall i, j :: 0 <= i < j < |targets| ==> targets[i] != targets[j])
    ensures t.scope.NodeScope? || t.scope.OtherScope? ==> ok
  {
    match t.scope
    case PairScope =>
      return |targets| == 2 && targets[0] != targets[1] && cap >= 2;
    case GroupScope =>
      if |targets| < 2 {
        return false;
      }
      var dup := FirstDuplicate(targets);
      return dup.None? && t.speaksGroup && cap >= |targets|;
    case _ =>
      return true;
  }

  /** buildPlan, without the checks that look only at a test's own fields. */
  method BuildPlan(tests: seq<Planned>, targets: seq<string>, failFast: bool, rules: Rules, cap: int) returns (plan: Option<Plan>)
    ensures plan.Some? <==> NamesDistinct(tests) && forall i :: 0 <= i < |tests| ==> TopologyOk(tests[i], targets, cap)
    ensures plan.Some? ==> plan.value == Plan(tests, targets, failFast, rules) && PlanOk(plan.value)
  {
    var seen: set<string> := {};
    for k := 0 to |tests|
      invariant forall i :: 0 <= i < k ==> tests[i].name in seen && TopologyOk(tests[i], targets, cap)
      invariant forall n :: n in seen ==> exists i :: 0 <= i < k && tests[i].name == n
      invariant forall i, j :: 0 <= i < j < k ==> tests[i].name != tests[j].name
    {
      if tests[k].name in seen {
        return None;
      }
      seen := seen + {tests[k].name};
      var ok := ValidateTopology(tests[k], targets, cap);
      if !ok {
        return None;
      }
    }
    return Some(Plan(tests, targets, failFast, rules));
  }

  /** A plan pinned at a cap is never held up by that cap alone: on an idle fleet every unit fits. */
  lemma EveryUnitFits(plan: Plan, cap: int, u: Unit)
    requires cap >= 1 && UnitOk(plan, u) && TopologyOk(plan.tests[u.test], plan.targets, cap)
    ensures |NodeSet(u)| <= cap
  {
    SetOfSeq(u.nodes);
  }

  /** The ranks of a pair or group that was accepted run on as many different nodes. */
  lemma RanksRunApart(plan: Plan, cap: int, u: Unit, r: nat, q: nat)
    requires UnitOk(plan, u) && TopologyOk(plan.tests[u.test], plan.targets, cap) && r < q < |u.nodes|
    ensures forall attempt :: PodId(u, r, attempt).Node() != PodId(u, q, attempt).Node()
  {
  }

  lemma {:induction false} SetOfSeq(s: seq<string>)
    ensures |set n | n in s| <= |s|
  {
    if s != [] {
      var rest := s[..|s| - 1];
      SetOfSeq(rest);
      assert (set n | n in s) == (set n | n in rest) + {s[|s| - 1]};
    }
  }
}
