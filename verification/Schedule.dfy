/**
  The schedule cursor: at most one due tick per pass, the cursor persisted before the run
  is created, and every tick accounted for.
*/
module Schedule {
  import opened Base

  // ---------------------------------------------------------------- ticks

  /** The next occurrence strictly after an instant, if there is one. */
  type Cron = int -> Option<int>

  ghost predicate Advances(next: Cron) {
    forall t :: next(t).Some? ==> next(t).value > t
  }

  /** The ticks after `from`, up to and including `now`. */
  ghost function Due(next: Cron, from: int, now: int): seq<int>
    requires Advances(next)
    decreases if from < now then now - from else 0
  {
    match next(from)
    case None => []
    case Some(t) => if t > now then [] else [t] + Due(next, t, now)
  }

  lemma {:induction false} DueIncreases(next: Cron, from: int, now: int)
    requires Advances(next)
    ensures forall i :: 0 <= i < |Due(next, from, now)| ==> from < Due(next, from, now)[i] <= now
    ensures forall i, j :: 0 <= i < j < |Due(next, from, now)| ==> Due(next, from, now)[i] < Due(next, from, now)[j]
    decreases if from < now then now - from else 0
  {
    var t := next(from);
    if t.Some? && t.value <= now {
      DueIncreases(next, t.value, now);
    }
  }

  /** Stopping at a tick and going on from it enumerates the same ticks. */
  lemma {:induction false} DueSplits(next: Cron, from: int, tick: int, now: int)
    requires Advances(next) && tick in Due(next, from, now)
    ensures Due(next, from, now) == Due(next, from, tick) + Due(next, tick, now)
    ensures Due(next, from, tick) != [] && Due(next, from, tick)[|Due(next, from, tick)| - 1] == tick
    decreases if from < now then now - from else 0
  {
    var t := next(from).value;
    DueIncreases(next, from, now);
    assert Due(next, from, now) == [t] + Due(next, t, now);
    if tick == t {
      NoneBefore(next, t);
      assert Due(next, from, t) == [t];
    } else {
      assert tick in Due(next, t, now);
      DueIncreases(next, t, now);
      DueSplits(next, t, tick, now);
      assert Due(next, from, tick) == [t] + Due(next, t, tick);
    }
  }

  lemma DueCons(next: Cron, from: int, now: int)
    requires Advances(next) && next(from).Some? && next(from).value <= now
    ensures Due(next, from, now) == [next(from).value] + Due(next, next(from).value, now)
  {
  }

  lemma NoneDue(next: Cron, from: int, now: int)
    requires Advances(next) && (next(from).None? || next(from).value > now)
    ensures Due(next, from, now) == []
  {
  }

  lemma NoneBefore(next: Cron, t: int)
    requires Advances(next)
    ensures Due(next, t, t) == []
  {
  }

  // ---------------------------------------------------------------- which tick to run now

  const MAX_TICK_SCAN: int := 1000

  datatype Decision = Decision(tick: Option<int>, missed: int, resync: bool)

  /** The most recent tick the deadline still admits; every other one is missed. */
  ghost function Decide(next: Cron, from: int, now: int, deadline: Option<int>): Decision
    requires Advances(next)
  {
    var due := Due(next, from, now);
    if |due| > MAX_TICK_SCAN then Decision(None, MAX_TICK_SCAN + 1, true)
    else if due != [] && (deadline.None? || due[|due| - 1] >= deadline.value)
    then Decision(Some(due[|due| - 1]), |due| - 1, false)
    else Decision(None, |due|, false)
  }

  /** The ticks enumerated so far, up to `last`. */
  ghost predicate Seen(next: Cron, from: int, last: int, now: int, seen: seq<int>)
    requires Advances(next)
  {
    seen + Due(next, last, now) == Due(next, from, now)
  }

  lemma SeenNothing(next: Cron, from: int, now: int)
    requires Advances(next)
    ensures Seen(next, from, from, now, [])
  {
  }

  lemma DueSeen(next: Cron, from: int, last: int, now: int, seen: seq<int>)
    requires Advances(next) && Seen(next, from, last, now, seen) && next(last).Some? && next(last).value <= now
    ensures Seen(next, from, next(last).value, now, seen + [next(last).value])
    ensures |Due(next, from, now)| > |seen| && next(last).value > last
  {
    var t := next(last).value;
    DueCons(next, last, now);
    assert seen + ([t] + Due(next, t, now)) == (seen + [t]) + Due(next, t, now);
  }

  lemma AllSeen(next: Cron, from: int, last: int, now: int, seen: seq<int>)
    requires Advances(next) && Seen(next, from, last, now, seen) && Due(next, last, now) == []
    ensures Due(next, from, now) == seen
  {
  }

  /** dueTick. */
  method DueTick(next: Cron, from: int, now: int, starting: Option<int>) returns (d: Decision)
    requires Advances(next)
    ensures d == Decide(next, from, now, if starting.None? then None else Some(now - starting.value))
  {
    SeenNothing(next, from, now);
    hide Due, Seen, Advances;
    var deadline := if starting.None? then None else Some(now - starting.value);
    var latest: Option<int> := None;
    var missed, scanned := 0, 0;
    var t := next(from);
    ghost var seen: seq<int> := [];
    ghost var last := from;
    while t.Some? && t.value <= now
      invariant t == next(last) && scanned == |seen| <= MAX_TICK_SCAN
      invariant Seen(next, from, last, now, seen)
      invariant seen != [] ==> last == seen[|seen| - 1]
      invariant missed == |seen| - (if latest.Some? then 1 else 0)
      invariant latest.Some? ==> seen != [] && latest.value == seen[|seen| - 1] && (deadline.None? || latest.value >= deadline.value)
      invariant latest.None? && seen != [] ==> deadline.Some? && seen[|seen| - 1] < deadline.value
      decreases now - last
    {
      scanned := scanned + 1;
      DueSeen(next, from, last, now, seen);
      if scanned > MAX_TICK_SCAN {
        return Decision(None, scanned, true);
      }
      if deadline.Some? && t.value < deadline.value {
        missed := missed + 1;
      } else {
        if latest.Some? {
          missed := missed + 1;
        }
        latest := t;
      }
      seen, last := seen + [t.value], t.value;
      t := next(t.value);
    }
    NoneDue(next, last, now);
    AllSeen(next, from, last, now, seen);
    return Decision(latest, missed, false);
  }

  /** Each pass below the scan limit splits its window into at most one chosen tick, the latest eligible, and the missed count. */
  lemma WindowIsSplit(next: Cron, from: int, now: int, deadline: Option<int>)
    requires Advances(next)
    ensures var d, due := Decide(next, from, now, deadline), Due(next, from, now);
            !d.resync ==>
              && |due| == d.missed + (if d.tick.Some? then 1 else 0)
              && (d.tick.Some? <==> exists i :: 0 <= i < |due| && (deadline.None? || due[i] >= deadline.value))
              && (d.tick.Some? ==> d.tick.value in due && forall i :: 0 <= i < |due| ==> due[i] <= d.tick.value)
  {
    DueIncreases(next, from, now);
  }

  // ---------------------------------------------------------------- the missed counter

  const MAX_INT32: int := 0x7fff_ffff

  function AddMissed(current: int, delta: int): (sum: int)
    ensures delta <= 0 ==> sum == current
    ensures delta >= 0 && current <= MAX_INT32 ==> sum == if current + delta <= MAX_INT32 then current + delta else MAX_INT32
  {
    if delta <= 0 then current
    else if current + delta > MAX_INT32 then MAX_INT32
    else current + delta
  }

  // ---------------------------------------------------------------- passes and crashes

  /**
    The durable standing of a schedule. created is the tick of every run it created, in
    order; spent are ticks whose cursor was written and whose run was not created; active
    are the ticks whose run has not finished.
  */
  datatype State = State(origin: int, cursor: Option<int>, missed: int, created: seq<int>, spent: seq<int>, active: set<int>)

  datatype Policy = Allow | Forbid

  /**
    How far a pass gets: its first status write, then its create. A pass also has the runs
    its cached list showed it as active (`listed` below), which need not be all there are.
  */
  datatype Fate = Fate(wrote: bool, created: bool)

  datatype Action =
    | Pass(next: Cron, now: int, starting: Option<int>, suspended: bool, policy: Policy, listed: set<int>, fate: Fate)
    | RunEnds(tick: int)

  function WindowStart(st: State): int {
    if st.cursor.Some? then st.cursor.value else st.origin
  }

  ghost function Chosen(st: State, a: Action): Decision
    requires a.Pass? && Advances(a.next)
  {
    Decide(a.next, WindowStart(st), a.now, if a.starting.None? then None else Some(a.now - a.starting.value))
  }

  /** What a pass decided becomes durable, or some of it, or none. */
  function Settle(st: State, d: Decision, now: int, policy: Policy, listed: set<int>, fate: Fate): State {
    if !fate.wrote then st
    else
      var missed := AddMissed(st.missed, d.missed);
      if d.resync then st.(cursor := Some(now), missed := missed)
      else if d.tick.None? then st.(missed := missed)
      else if policy.Forbid? && listed != {} then st.(cursor := d.tick, missed := AddMissed(missed, 1))
      else
        var moved := st.(cursor := d.tick, missed := missed);
        if fate.created then moved.(created := st.created + [d.tick.value], active := st.active + {d.tick.value})
        else moved.(spent := st.spent + [d.tick.value])
  }

  ghost predicate Enabled(a: Action) {
    a.Pass? ==> Advances(a.next)
  }

  ghost function Apply(st: State, a: Action): State
    requires Enabled(a)
  {
    match a
    case RunEnds(tick) => st.(active := st.active - {tick})
    case Pass(_, now, _, suspended, policy, listed, fate) =>
      if suspended then st else Settle(st, Chosen(st, a), now, policy, listed, fate)
  }

  ghost function After(st: State, trace: seq<Action>): State
    requires forall i :: 0 <= i < |trace| ==> Enabled(trace[i])
  {
    if trace == [] then st else Apply(After(st, trace[..|trace| - 1]), trace[|trace| - 1])
  }

  function Fresh(origin: int): State {
    State(origin, None, 0, [], [], {})
  }

  // ---------------------------------------------------------------- what one pass leaves behind

  /** The deadline still lets this tick start, on this pass's clock. */
  predicate InDeadline(a: Action, tick: int)
    requires a.Pass?
  {
    a.starting.None? || a.now - tick <= a.starting.value
  }

  /** The ticks this pass finds due. */
  ghost function Window(st: State, a: Action): seq<int>
    requires a.Pass? && Advances(a.next)
  {
    Due(a.next, if st.cursor.Some? then st.cursor.value else st.origin, a.now)
  }

  /** A 32-bit counter that sticks at its top. */
  function Saturated(n: int): int {
    if n > 2147483647 then 2147483647 else n
  }

  ghost predicate Writes(a: Action) {
    a.Pass? && Advances(a.next) && !a.suspended && a.fate.wrote
  }

  lemma NoneAfterNow(next: Cron, now: int)
    requires Advances(next)
    ensures Due(next, now, now) == []
  {
  }

  /**
    Past a thousand due ticks a written pass gives up on all of them: the cursor moves to the
    pass's own time, nothing is created or spent, and nothing is due any more.
  */
  lemma ResyncCatchesUp(st: State, a: Action)
    requires Writes(a) && |Window(st, a)| > 1000
    ensures var t := Apply(st, a);
            && t == st.(cursor := Some(a.now), missed := Saturated(st.missed + 1001))
            && Window(t, a) == []
  {
    NoneAfterNow(a.next, a.now);
  }

  /**
    Up to a thousand, with the last of them within the deadline: the cursor moves to that tick
    and nothing is left due. Under Allow, or when no run is listed as active, the tick creates
    a run if the create lands and is spent if it does not; under Forbid with a run listed it is
    missed like the ones before it.
  */
  lemma DueTickFires(st: State, a: Action)
    requires Writes(a) && 0 < |Window(st, a)| <= 1000 && InDeadline(a, Window(st, a)[|Window(st, a)| - 1]) && st.missed <= 2147483647
    ensures var due := Window(st, a);
            var tick := due[|due| - 1];
            var t := Apply(st, a);
            && Window(t, a) == []
            && t.cursor == Some(tick)
            && (if a.policy.Forbid? && a.listed != {} then t == st.(cursor := Some(tick), missed := Saturated(st.missed + |due|))
                else if a.fate.created
                then t == st.(cursor := Some(tick), missed := Saturated(st.missed + |due| - 1),
                              created := st.created + [tick], active := st.active + {tick})
                else t == st.(cursor := Some(tick), missed := Saturated(st.missed + |due| - 1), spent := st.spent + [tick]))
  {
    var from := WindowStart(st);
    var due := Due(a.next, from, a.now);
    LastIsLast(a.next, from, a.now);
    DueSplits(a.next, from, due[|due| - 1], a.now);
    hide Due;
  }

  /** A window whose last tick is out of the deadline is counted and left where it is; an empty one changes nothing. */
  lemma ExpiredWindowWaits(st: State, a: Action)
    requires Writes(a) && |Window(st, a)| <= 1000
    requires Window(st, a) != [] ==> !InDeadline(a, Window(st, a)[|Window(st, a)| - 1])
    ensures st.missed <= 2147483647 ==> Apply(st, a) == st.(missed := Saturated(st.missed + |Window(st, a)|))
    ensures Window(Apply(st, a), a) == Window(st, a)
  {
    hide Due;
  }

  /** After a written pass something is still due if and only if the whole window had expired. */
  lemma NothingLeftDue(st: State, a: Action)
    requires Writes(a) && st.missed <= 2147483647
    ensures Window(Apply(st, a), a) != [] <==>
              var due := Window(st, a); 0 < |due| <= 1000 && a.starting.Some? && forall i :: 0 <= i < |due| ==> due[i] < a.now - a.starting.value
  {
    var due := Window(st, a);
    DueIncreases(a.next, WindowStart(st), a.now);
    if |due| > 1000 {
      ResyncCatchesUp(st, a);
    } else if due != [] && InDeadline(a, due[|due| - 1]) {
      DueTickFires(st, a);
      hide Due, Apply;
    } else {
      ExpiredWindowWaits(st, a);
      hide Due, Apply;
    }
  }

  /** A suspended pass, and one whose first write does not land, change nothing. */
  lemma NothingWithoutTheWrite(st: State, a: Action)
    requires a.Pass? && Enabled(a) && (a.suspended || !a.fate.wrote)
    ensures Apply(st, a) == st
  {
  }

  // ---------------------------------------------------------------- no tick creates two runs

  predicate Increasing(s: seq<int>) {
    forall i, j :: 0 <= i < j < |s| ==> s[i] < s[j]
  }

  /** Everything acted on lies behind the cursor. */
  ghost predicate Behind(st: State) {
    && Increasing(st.created) && Increasing(st.spent)
    && (forall t :: t in st.created || t in st.spent ==> t <= WindowStart(st))
    && (forall t :: t in st.created ==> t !in st.spent)
    && st.missed <= MAX_INT32
  }

  lemma ChosenIsAhead(st: State, a: Action)
    requires a.Pass? && Advances(a.next)
    ensures var d := Chosen(st, a);
            && (d.tick.Some? ==> d.tick.value > WindowStart(st))
            && (d.resync ==> a.now > WindowStart(st))
            && d.missed >= 0
  {
    DueIncreases(a.next, WindowStart(st), a.now);
  }

  lemma StepBehind(st: State, a: Action)
    requires Behind(st) && Enabled(a)
    ensures Behind(Apply(st, a)) && WindowStart(Apply(st, a)) >= WindowStart(st)
  {
    if a.Pass? && !a.suspended {
      ChosenIsAhead(st, a);
      var d := Chosen(st, a);
      hide Decide, Chosen;
      if d.tick.Some? {
        Longer(st.created, WindowStart(st), d.tick.value);
        Longer(st.spent, WindowStart(st), d.tick.value);
      }
    }
  }

  lemma Longer(s: seq<int>, bound: int, t: int)
    requires Increasing(s) && (forall x :: x in s ==> x <= bound) && t > bound
    ensures Increasing(s + [t]) && t !in s && forall x :: x in s + [t] ==> x <= t
  {
    assert forall i :: 0 <= i < |s| ==> s[i] in s;
  }

  /** Over any passes, clocks, edits and crashes, the ticks that created runs strictly increase: none creates two. */
  lemma {:induction false} CreatedTicksIncrease(origin: int, trace: seq<Action>)
    requires forall i :: 0 <= i < |trace| ==> Enabled(trace[i])
    ensures var st := After(Fresh(origin), trace);
            Behind(st) && Increasing(st.created) && (forall t :: t in st.created ==> t !in st.spent)
  {
    if trace != [] {
      CreatedTicksIncrease(origin, trace[..|trace| - 1]);
      StepBehind(After(Fresh(origin), trace[..|trace| - 1]), trace[|trace| - 1]);
    }
  }

  /** The list shows some active run whenever there is one, the one just created included. */
  ghost predicate ListIsCurrent(st: State, a: Action) {
    a.Pass? && st.active != {} ==> a.listed != {}
  }

  ghost predicate AllCurrent(st: State, trace: seq<Action>)
    requires forall i :: 0 <= i < |trace| ==> Enabled(trace[i])
  {
    trace == [] || (AllCurrent(st, trace[..|trace| - 1]) && ListIsCurrent(After(st, trace[..|trace| - 1]), trace[|trace| - 1]))
  }

  /** Under the Forbid policy, with a list that shows the run just created, at most one run of the schedule is ever active. */
  lemma {:induction false} OneRunAtATime(origin: int, trace: seq<Action>)
    requires forall i :: 0 <= i < |trace| ==> Enabled(trace[i]) && (trace[i].Pass? ==> trace[i].policy.Forbid?)
    requires AllCurrent(Fresh(origin), trace)
    ensures |After(Fresh(origin), trace).active| <= 1
  {
    if trace != [] {
      var st, a := After(Fresh(origin), trace[..|trace| - 1]), trace[|trace| - 1];
      OneRunAtATime(origin, trace[..|trace| - 1]);
      hide Decide;
      if a.RunEnds? {
        SubsetSize(st.active - {a.tick}, st.active);
      } else if st.active == {} {
        assert forall t: int :: st.active + {t} == {t};
      }
    }
  }

  /** The list has to be current: over a list that misses an active run, the next due tick starts a second one. */
  lemma StaleListStartsAnother(st: State, a: Action, active: int)
    requires Behind(st) && a.Pass? && Enabled(a) && !a.suspended && a.fate == Fate(true, true) && a.listed == {}
    requires Chosen(st, a).tick.Some? && !Chosen(st, a).resync && active in st.active && active <= WindowStart(st)
    ensures |Apply(st, a).active| > 1
  {
    ChosenIsAhead(st, a);
    var tick := Chosen(st, a).tick.value;
    SubsetSize({active, tick}, Apply(st, a).active);
  }

  // ---------------------------------------------------------------- every tick is accounted for

  /** The pass writes over a window of ticks that have all expired. */
  ghost predicate WritesExpired(st: State, a: Action)
    requires a.Pass? && Advances(a.next)
  {
    !a.suspended && a.fate.wrote && Due(a.next, WindowStart(st), a.now) != [] && Chosen(st, a).tick.None?
  }

  /** One unchanging schedule, no backlog past the scan limit, no counter at its ceiling. */
  ghost predicate Bounded(next: Cron, st: State, a: Action) {
    a.Pass? ==>
      && a.next == next && Advances(next)
      && |Due(next, WindowStart(st), a.now)| <= MAX_TICK_SCAN
      && st.missed + |Due(next, WindowStart(st), a.now)| <= MAX_INT32
  }

  /** And no pass writes over a window whose ticks have all expired. */
  ghost predicate Plain(next: Cron, st: State, a: Action) {
    Bounded(next, st, a) && (a.Pass? ==> !WritesExpired(st, a))
  }

  ghost predicate PlainTrace(next: Cron, st: State, trace: seq<Action>)
    requires forall i :: 0 <= i < |trace| ==> Enabled(trace[i])
  {
    trace == [] || (PlainTrace(next, st, trace[..|trace| - 1]) && Plain(next, After(st, trace[..|trace| - 1]), trace[|trace| - 1]))
  }

  /** Ticks up to the cursor: each created a run, was spent, or was missed. */
  ghost predicate Accounted(next: Cron, st: State)
    requires Advances(next)
  {
    var ticks := Due(next, st.origin, WindowStart(st));
    && (forall t :: t in st.created || t in st.spent ==> t in ticks)
    && |ticks| == |st.created| + |st.spent| + st.missed
    && st.missed >= 0
    && (st.cursor.Some? ==> ticks != [] && ticks[|ticks| - 1] == st.cursor.value)
  }

  lemma WindowJoins(next: Cron, st: State, now: int)
    requires Advances(next) && Accounted(next, st) && Due(next, WindowStart(st), now) != []
    ensures var due := Due(next, WindowStart(st), now);
            var tick := due[|due| - 1];
            Due(next, st.origin, tick) == Due(next, st.origin, WindowStart(st)) + due
  {
    var from := WindowStart(st);
    var due := Due(next, from, now);
    var tick := due[|due| - 1];
    DueSplits(next, from, tick, now);
    DueIncreases(next, tick, now);
    LastIsLast(next, from, now);
    if st.cursor.Some? {
      DueExtends(next, st.origin, from, tick);
    } else {
      NoneBefore(next, st.origin);
    }
  }

  /** Nothing is due after the last due tick. */
  lemma LastIsLast(next: Cron, from: int, now: int)
    requires Advances(next) && Due(next, from, now) != []
    ensures var due := Due(next, from, now); Due(next, from, due[|due| - 1]) == due
  {
    var due := Due(next, from, now);
    var tick := due[|due| - 1];
    DueSplits(next, from, tick, now);
    DueIncreases(next, from, now);
    var reached := Due(next, from, tick);
    assert due[|reached| - 1] == due[|due| - 1];
    assert |reached| == |due|;
  }

  /** Going on from a tick already reached. */
  lemma {:induction false} DueExtends(next: Cron, from: int, tick: int, now: int)
    requires Advances(next) && tick <= now && Due(next, from, tick) != [] && Due(next, from, tick)[|Due(next, from, tick)| - 1] == tick
    ensures Due(next, from, now) == Due(next, from, tick) + Due(next, tick, now)
    decreases if from < tick then tick - from else 0
  {
    assert next(from).Some? && next(from).value <= tick;
    var t := next(from).value;
    DueIncreases(next, from, tick);
    DueCons(next, from, tick);
    DueCons(next, from, now);
    NoneBefore(next, tick);
    hide Due;
    if t != tick {
      var more := Due(next, t, tick);
      assert more != [] && more[|more| - 1] == tick;
      DueExtends(next, t, tick, now);
    }
  }

  lemma StepAccounted(next: Cron, st: State, a: Action)
    requires Enabled(a) && Advances(next) && Accounted(next, st) && Plain(next, st, a)
    ensures Accounted(next, Apply(st, a))
  {
    if a.Pass? && !a.suspended && a.fate.wrote && Due(next, WindowStart(st), a.now) != [] {
      FiredAccounted(next, st, a);
    }
  }

  lemma FiredAccounted(next: Cron, st: State, a: Action)
    requires Enabled(a) && Advances(next) && Accounted(next, st) && Plain(next, st, a) && a.Pass? && !a.suspended && a.fate.wrote
    requires Due(next, WindowStart(st), a.now) != []
    ensures Accounted(next, Apply(st, a))
  {
    hide Due, Accounted;
    FiredSums(next, st, a);
    FiredMoves(next, st, Apply(st, a), a.now);
  }

  /** What a fired window adds up to. */
  ghost predicate Moved(st: State, t: State, tick: int, count: nat) {
    && t.origin == st.origin && t.cursor == Some(tick) && t.missed >= 0
    && (forall x :: x in t.created || x in t.spent ==> x in st.created || x in st.spent || x == tick)
    && |t.created| + |t.spent| + t.missed == |st.created| + |st.spent| + st.missed + count
  }

  lemma FiredSums(next: Cron, st: State, a: Action)
    requires Enabled(a) && Advances(next) && Accounted(next, st) && Plain(next, st, a) && a.Pass? && !a.suspended && a.fate.wrote
    requires Due(next, WindowStart(st), a.now) != []
    ensures var due := Due(next, WindowStart(st), a.now); Moved(st, Apply(st, a), due[|due| - 1], |due|)
  {
    hide Due;
  }

  lemma FiredMoves(next: Cron, st: State, t: State, now: int)
    requires Advances(next) && Accounted(next, st) && Due(next, WindowStart(st), now) != []
    requires var due := Due(next, WindowStart(st), now); Moved(st, t, due[|due| - 1], |due|)
    ensures Accounted(next, t)
  {
    WindowJoins(next, st, now);
    hide Due;
    var due := Due(next, WindowStart(st), now);
    assert due[|due| - 1] in due;
  }

  /**
    Exactly when a pass keeps the account: from an accounted state, within the scan and
    counter limits, if and only if it does not write over a window whose ticks have all
    expired. A deadline alone does no harm.
  */
  lemma AccountKeptExactly(next: Cron, st: State, a: Action)
    requires Enabled(a) && Advances(next) && Accounted(next, st) && Bounded(next, st, a) && a.Pass?
    ensures Accounted(next, Apply(st, a)) <==> !WritesExpired(st, a)
  {
    if !WritesExpired(st, a) {
      StepAccounted(next, st, a);
    } else {
      var t := Apply(st, a);
      assert t == st.(missed := st.missed + |Due(next, WindowStart(st), a.now)|);
    }
  }

  /**
    Over any passes within the scan and counter limits, none of which writes over a window
    of expired ticks, every tick up to the cursor is exactly one of run, spent or missed.
  */
  lemma {:induction false} EveryTickAccounted(next: Cron, origin: int, trace: seq<Action>)
    requires Advances(next) && forall i :: 0 <= i < |trace| ==> Enabled(trace[i])
    requires PlainTrace(next, Fresh(origin), trace)
    ensures Accounted(next, After(Fresh(origin), trace))
  {
    if trace == [] {
      NoneBefore(next, origin);
    } else {
      EveryTickAccounted(next, origin, trace[..|trace| - 1]);
      StepAccounted(next, After(Fresh(origin), trace[..|trace| - 1]), trace[|trace| - 1]);
    }
  }

  /** A window of expired ticks is counted again by every pass until one fires. */
  lemma DeadlineCountsTwice(next: Cron, origin: int, now: int)
    requires Advances(next) && Due(next, origin, now) == [now - 100]
    ensures var pass := Pass(next, now, Some(10), false, Forbid, {}, Fate(true, true));
            var st := After(Fresh(origin), [pass, pass]);
            st.missed == 2 && st.cursor.None? && |Due(next, origin, now)| == 1
  {
    var pass := Pass(next, now, Some(10), false, Forbid, {}, Fate(true, true));
    assert [pass, pass][..1] == [pass] && [pass][..0] == [];
    var st0 := Fresh(origin);
    var st1 := Apply(st0, pass);
    assert After(st0, []) == st0;
    assert After(st0, [pass]) == st1;
    assert After(st0, [pass, pass]) == Apply(st1, pass);
  }

  // ---------------------------------------------------------------- the reconciler

  class Scheduler {
    const origin: int
    var cursor: Option<int>
    var missed: int
    var created: seq<int>
    var spent: seq<int>
    var active: set<int>

    ghost function View(): State
      reads this
    {
      State(origin, cursor, missed, created, spent, active)
    }

    constructor (origin: int)
      ensures View() == Fresh(origin)
    {
      this.origin := origin;
      cursor, missed, created, spent, active := None, 0, [], [], {};
    }

    /** Reconcile and fire: the cursor is written before the run is created. */
    method Reconcile(next: Cron, now: int, starting: Option<int>, suspended: bool, policy: Policy, listed: set<int>, fate: Fate)
      requires Advances(next)
      modifies this
      ensures View() == Apply(old(View()), Pass(next, now, starting, suspended, policy, listed, fate))
    {
      if suspended {
        return;
      }
      var from := if cursor.Some? then cursor.value else origin;
      var d := DueTick(next, from, now, starting);
      var count := AddMissed(missed, d.missed);
      if !fate.wrote {
        return;
      }
      if d.resync {
        cursor, missed := Some(now), count;
      } else if d.tick.None? {
        missed := count;
      } else if policy.Forbid? && listed != {} {
        cursor, missed := d.tick, AddMissed(count, 1);
      } else {
        Fire(d.tick.value, count, fate.created);
      }
    }

    method Fire(tick: int, count: int, creates: bool)
      modifies this
      ensures cursor == Some(tick) && missed == count
      ensures creates ==> created == old(created) + [tick] && active == old(active) + {tick} && spent == old(spent)
      ensures !creates ==> spent == old(spent) + [tick] && created == old(created) && active == old(active)
    {
      cursor, missed := Some(tick), count;
      if !creates {
        spent := spent + [tick];
        return;
      }
      created := created + [tick];
      active := active + {tick};
    }
  }
}
