/** Timeouts of executions that park and resume, and of nested sub-workflows. Times are milliseconds. */
module Deadlines {
  import opened Numbers
  import opened Wrappers

  const MAX_SAFE_INTEGER := 9007199254740991

  /** The longest delay of the runtime's timers; a longer one goes off after one millisecond. */
  const MAX_DELAY := 2147483647

  // ---------------------------------------------------------------- one run

  /** What runMainProcess does about the hard timeout. */
  datatype Timeout = NoTimeout | StopNow | Armed(delay: int)

  /** The time budget of a workflow, if it has one. Settings are in seconds. */
  function Budget(setting: Option<int>, defaultTimeout: int, maxTimeout: int): (budget: Option<int>)
    ensures budget.Some? ==> budget.value >= 1000
  {
    var timeout := if setting.Some? then setting.value else defaultTimeout;
    if timeout > 0 && maxTimeout > 0 then Some(1000 * Min(timeout, maxTimeout)) else None
  }

  /** How long a timer set for `delay` takes to go off. */
  function Elapsing(delay: int): int {
    if delay > MAX_DELAY then 1 else delay
  }

  /** The moment the run is stopped at, given that it is armed at `now`. */
  function StopsAt(timeout: Timeout, now: int): Option<int> {
    match timeout
    case NoTimeout => None
    case StopNow => Some(now)
    case Armed(delay) => Some(now + Elapsing(delay))
  }

  /** The budget is the workflow's own setting, or without one the default, in milliseconds; it is capped at the
    * maximum; and there is none if either is not positive. */
  lemma BudgetMeans(setting: Option<int>, defaultTimeout: int, maxTimeout: int, seconds: int)
    requires seconds == match setting case Some(own) => own case None => defaultTimeout
    ensures seconds <= 0 || maxTimeout <= 0 ==> Budget(setting, defaultTimeout, maxTimeout) == None
    ensures 0 < seconds <= maxTimeout ==> Budget(setting, defaultTimeout, maxTimeout) == Some(1000 * seconds)
    ensures 0 < maxTimeout < seconds ==> Budget(setting, defaultTimeout, maxTimeout) == Some(1000 * maxTimeout)
  {
  }

  /** When a run armed at `now` is to be stopped, given the start time it was handed, if any. */
  function StopTime(startedAt: Option<int>, now: int, budget: int): int {
    if startedAt.Some? then Max(now, startedAt.value + budget) else now + budget
  }

  /** A run resumed by the wait tracker is handed the start time read from its row; a first run, and a run
    * resumed by a webhook, a form or a chat message, is handed none. The run is stopped at its start plus its
    * budget, or at once when that has passed; the delay never exceeds the budget unless the start lies in
    * the future. A delay beyond the runtime's longest stops the run after a millisecond. */
  method ArmTimeout(setting: Option<int>, defaultTimeout: int, maxTimeout: int, startedAt: Option<int>, now: int)
    returns (timeout: Timeout)
    ensures Budget(setting, defaultTimeout, maxTimeout).None? <==> timeout == NoTimeout
    ensures Budget(setting, defaultTimeout, maxTimeout).Some? ==>
              var budget := Budget(setting, defaultTimeout, maxTimeout).value;
              && StopsAt(timeout, now) == Some(now + Elapsing(StopTime(startedAt, now, budget) - now))
              && (timeout.Armed? && timeout.delay > 2147483647 ==> StopsAt(timeout, now) == Some(now + 1))
              && (budget <= MAX_DELAY && (startedAt.None? || startedAt.value <= now) ==>
                    StopsAt(timeout, now) == Some(StopTime(startedAt, now, budget)))
              && (timeout == StopNow <==> startedAt.Some? && startedAt.value + budget <= now)
              && (timeout.Armed? ==> timeout.delay > 0)
              && (timeout.Armed? && (startedAt.None? || startedAt.value <= now) ==> timeout.delay <= budget)
  {
    var workflowTimeout := if setting.Some? then setting.value else defaultTimeout;
    if workflowTimeout > 0 {
      workflowTimeout := Min(workflowTimeout, maxTimeout);
    }
    timeout := NoTimeout;
    if workflowTimeout > 0 {
      var delay := Min(workflowTimeout, maxTimeout) * 1000;
      if startedAt.Some? {
        delay := Max(delay - (now - startedAt.value), 0);
      }
      timeout := if delay == 0 then StopNow else Armed(delay);
    }
  }

  // ---------------------------------------------------------------- park and resume

  /** One run of an execution between two parks: `handsOver` says that its resume passes on the start time
    * in the row, as only the wait tracker does. `setRunning` writes `marked` into the row's startedAt, and
    * the timeout is armed at `now`. */
  datatype Segment = Segment(handsOver: bool, marked: int, now: int)

  ghost predicate InOrder(segments: seq<Segment>) {
    && (forall i :: 0 <= i < |segments| ==> segments[i].marked <= segments[i].now)
    && (forall i :: 0 < i < |segments| ==> segments[i - 1].now <= segments[i].marked)
  }

  /** The start time run `i` is handed: what the row held before it, which is the mark of the run before. */
  function HandedOver(segments: seq<Segment>, i: nat): Option<int>
    requires i < |segments|
  {
    if i > 0 && segments[i].handsOver then Some(segments[i - 1].marked) else None
  }

  /** When run `i` is stopped. */
  function ArmedFor(segments: seq<Segment>, i: nat, budget: int): int
    requires i < |segments|
  {
    StopTime(HandedOver(segments, i), segments[i].now, budget)
  }

  /** When it would be stopped if parking did not extend the timeout. */
  function Promised(segments: seq<Segment>, i: nat, budget: int): int
    requires i < |segments|
  {
    Max(segments[i].now, segments[0].marked + budget)
  }

  /** A resume that hands a start time over does no harm when the run before it was marked at the first
    * start, or its budget has run out anyway. One that hands none over does no harm only when no time has
    * passed since the first start. */
  predicate Harmless(segments: seq<Segment>, i: nat, budget: int)
    requires 1 <= i < |segments|
  {
    if segments[i].handsOver
    then segments[i - 1].marked == segments[0].marked || segments[i - 1].marked + budget <= segments[i].now
    else segments[i].now == segments[0].marked
  }

  /** Parking leaves the deadline of a resumed run alone exactly when the resume is harmless; and it never
    * brings the deadline forward. */
  lemma ParkingNeutralIff(segments: seq<Segment>, i: nat, budget: int)
    requires InOrder(segments) && 1 <= i < |segments| && budget > 0
    ensures ArmedFor(segments, i, budget) == Promised(segments, i, budget) <==> Harmless(segments, i, budget)
    ensures ArmedFor(segments, i, budget) >= Promised(segments, i, budget)
  {
    MarkedAfter(segments, 0, i - 1);
  }

  lemma {:induction false} MarkedAfter(segments: seq<Segment>, i: nat, j: nat)
    requires InOrder(segments) && i <= j < |segments|
    ensures segments[i].marked <= segments[j].marked
    decreases j
  {
    if i < j {
      MarkedAfter(segments, i, j - 1);
    }
  }

  /** Over a whole history of parks: every resume keeps the promise exactly when every resume is harmless. */
  lemma PromiseKeptIff(segments: seq<Segment>, budget: int)
    requires InOrder(segments) && budget > 0
    ensures (forall i :: 1 <= i < |segments| ==> ArmedFor(segments, i, budget) == Promised(segments, i, budget)) <==>
            (forall i :: 1 <= i < |segments| ==> Harmless(segments, i, budget))
  {
    forall i | 1 <= i < |segments|
      ensures ArmedFor(segments, i, budget) == Promised(segments, i, budget) <==> Harmless(segments, i, budget)
    {
      ParkingNeutralIff(segments, i, budget);
    }
  }

  /** As long as every resume hands the start time over, the first one keeps the promise; a resume that
    * hands none over after any time has passed breaks it, be it the first one or a later one. */
  lemma FirstResume(segments: seq<Segment>, i: nat, budget: int)
    requires InOrder(segments) && 1 <= i < |segments| && budget > 0
    ensures segments[1].handsOver ==> ArmedFor(segments, 1, budget) == Promised(segments, 1, budget)
    ensures !segments[i].handsOver && segments[0].marked < segments[i].now ==>
              ArmedFor(segments, i, budget) > Promised(segments, i, budget)
  {
    ParkingNeutralIff(segments, 1, budget);
    ParkingNeutralIff(segments, i, budget);
  }

  /** Started at 0 with a budget of 1000, parked once, resumed by a webhook at 100: stopped at 1100. */
  lemma WebhookResumeRestartsTheClock()
    ensures var segments := [Segment(false, 0, 0), Segment(false, 100, 100)];
            && InOrder(segments)
            && ArmedFor(segments, 1, 1000) == 1100 && Promised(segments, 1, 1000) == 1000
  {
  }

  /** Every run parks before it is stopped. */
  ghost predicate ParksInTime(segments: seq<Segment>, budget: int) {
    forall i :: 0 < i < |segments| ==> segments[i].marked < ArmedFor(segments, i - 1, budget)
  }

  /** Even when every resume hands the start time over, parking again and again postpones the hard timeout
    * without bound. */
  lemma ParkingExtendsForEver(budget: int, far: nat) returns (segments: seq<Segment>)
    requires budget >= 1000
    ensures |segments| > 0 && InOrder(segments) && ParksInTime(segments, budget)
    ensures forall i :: 0 <= i < |segments| ==> segments[i].handsOver
    ensures ArmedFor(segments, |segments| - 1, budget) > segments[0].marked + far
  {
    segments := seq(far + 3, i => Segment(true, i, i));
    forall i | 0 < i < |segments| ensures segments[i].marked < ArmedFor(segments, i - 1, budget) {
      assert segments[i].marked == i && segments[i - 1].now == i - 1;
      assert i > 1 ==> segments[i - 2].marked == i - 2;
    }
    assert segments[|segments| - 2].marked == far + 1;
  }

  // ---------------------------------------------------------------- nested sub-workflows

  /** A sub-workflow: when it started, and its timeout setting in seconds. */
  datatype Level = Level(startTime: int, timeout: Option<int>)

  predicate Limited(level: Level) {
    level.timeout.Some? && level.timeout.value > 0
  }

  function OwnDeadline(level: Level): int
    requires Limited(level)
  {
    level.startTime + level.timeout.value * 1000
  }

  /** The deadline a sub-workflow passes on. The program's `||` reads a deadline of 0 as absent. */
  method SubworkflowTimeout(inherited: Option<int>, level: Level) returns (passed: Option<int>)
    ensures passed == PassedOn(inherited, level)
  {
    passed := inherited;
    if level.timeout.Some? && level.timeout.value > 0 {
      var parent := if inherited.Some? && inherited.value != 0 then inherited.value else MAX_SAFE_INTEGER;
      passed := Some(Min(parent, level.startTime + level.timeout.value * 1000));
    }
  }

  function PassedOn(inherited: Option<int>, level: Level): Option<int> {
    if !Limited(level) then inherited
    else if inherited.None? || inherited.value == 0 then Some(Min(MAX_SAFE_INTEGER, OwnDeadline(level)))
    else Some(Min(inherited.value, OwnDeadline(level)))
  }

  /** One level: a timeout of `t` seconds ends it 1000 * t milliseconds after its start, or at the inherited
    * deadline if that is earlier; without a timeout, or with one that is not positive, it inherits. */
  lemma OneLevel(inherited: Option<int>, start: int, timeout: Option<int>)
    requires inherited.Some? ==> InRange(inherited.value)
    ensures timeout.None? || timeout.value <= 0 ==> PassedOn(inherited, Level(start, timeout)) == inherited
    ensures timeout.Some? && timeout.value > 0 && InRange(start + 1000 * timeout.value) ==>
              PassedOn(inherited, Level(start, timeout)) ==
              if inherited.Some? && inherited.value < start + 1000 * timeout.value then inherited
              else Some(start + 1000 * timeout.value)
  {
  }

  /** The deadline at the bottom of a nest of sub-workflows, outermost first. */
  function Bottom(root: Option<int>, levels: seq<Level>): Option<int>
    decreases |levels|
  {
    if levels == [] then root else Bottom(PassedOn(root, levels[0]), levels[1..])
  }

  /** Absent is later than everything. */
  predicate NotLater(a: Option<int>, b: Option<int>) {
    b.None? || (a.Some? && a.value <= b.value)
  }

  predicate InRange(time: int) {
    0 < time < MAX_SAFE_INTEGER
  }

  /** The deadlines in force: the root's, and each limited level's own. */
  function InForce(root: Option<int>, levels: seq<Level>): set<int> {
    (if root.Some? then {root.value} else {})
    + set i | 0 <= i < |levels| && Limited(levels[i]) :: OwnDeadline(levels[i])
  }

  ghost predicate AllInRange(root: Option<int>, levels: seq<Level>) {
    && (root.Some? ==> InRange(root.value))
    && (forall i :: 0 <= i < |levels| && Limited(levels[i]) ==> InRange(OwnDeadline(levels[i])))
  }

  /** For any depth, the deadline at the bottom is the least of those in force, and absent only if there is
    * none. */
  lemma {:induction false} BottomIsLeast(root: Option<int>, levels: seq<Level>)
    requires AllInRange(root, levels)
    ensures var b, all := Bottom(root, levels), InForce(root, levels);
            && (b.None? <==> all == {})
            && (b.Some? ==> b.value in all && forall d :: d in all ==> b.value <= d)
    decreases |levels|
  {
    if levels != [] {
      var rest := levels[1..];
      var passed := PassedOn(root, levels[0]);
      assert forall i :: 0 <= i < |rest| ==> rest[i] == levels[i + 1];
      BottomIsLeast(passed, rest);
      InForceStep(root, levels);
    }
  }

  lemma InForceStep(root: Option<int>, levels: seq<Level>)
    requires levels != []
    ensures forall d :: d in InForce(root, levels) <==>
              d in InForce(root, levels[1..]) || (Limited(levels[0]) && d == OwnDeadline(levels[0]))
  {
    var rest := levels[1..];
    forall d ensures d in InForce(root, levels) <==>
                     d in InForce(root, rest) || (Limited(levels[0]) && d == OwnDeadline(levels[0]))
    {
      if exists i :: 0 <= i < |levels| && Limited(levels[i]) && OwnDeadline(levels[i]) == d {
        var i :| 0 <= i < |levels| && Limited(levels[i]) && OwnDeadline(levels[i]) == d;
        if i > 0 {
          assert rest[i - 1] == levels[i];
        }
      }
      if exists i :: 0 <= i < |rest| && Limited(rest[i]) && OwnDeadline(rest[i]) == d {
        var i :| 0 <= i < |rest| && Limited(rest[i]) && OwnDeadline(rest[i]) == d;
        assert levels[i + 1] == rest[i];
      }
    }
  }

  /** For all times: a level passes on a deadline no later than the one it inherited, except exactly when it
    * inherited 0, which the program reads as absent, and has a later deadline of its own. */
  lemma NeverLaterIff(inherited: Option<int>, level: Level)
    ensures NotLater(PassedOn(inherited, level), inherited) <==>
            !(inherited == Some(0) && Limited(level) && OwnDeadline(level) > 0)
  {
  }

  /** The deadline a run starts with: absent, or the time left to it added to the present. */
  function RootDeadline(now: int, workflowTimeout: int): Option<int> {
    if workflowTimeout <= 0 then None else Some(now + workflowTimeout * 1000)
  }

  /** While the clock shows positive times, no level inherits a deadline of 0, at any depth: so each one
    * passes on a deadline no later than the one it inherited, without any upper bound on the times. */
  lemma {:induction false} NeverLaterFromTheRoot(now: int, workflowTimeout: int, levels: seq<Level>, level: Level)
    requires now > 0 && forall i :: 0 <= i < |levels| ==> levels[i].startTime > 0
    ensures var inherited := Bottom(RootDeadline(now, workflowTimeout), levels);
            inherited != Some(0) && NotLater(PassedOn(inherited, level), inherited)
  {
    BottomPositive(RootDeadline(now, workflowTimeout), levels);
    NeverLaterIff(Bottom(RootDeadline(now, workflowTimeout), levels), level);
  }

  lemma {:induction false} BottomPositive(root: Option<int>, levels: seq<Level>)
    requires root.Some? ==> root.value > 0
    requires forall i :: 0 <= i < |levels| ==> levels[i].startTime > 0
    ensures Bottom(root, levels).Some? ==> Bottom(root, levels).value > 0
    decreases |levels|
  {
    if levels != [] {
      BottomPositive(PassedOn(root, levels[0]), levels[1..]);
    }
  }

  /** At every depth the deadline is no later than at any level above it. */
  lemma {:induction false} NeverLaterThanAncestors(root: Option<int>, levels: seq<Level>, i: nat, j: nat)
    requires AllInRange(root, levels) && i <= j <= |levels|
    ensures NotLater(Bottom(root, levels[..j]), Bottom(root, levels[..i]))
  {
    BottomIsLeast(root, levels[..i]);
    BottomIsLeast(root, levels[..j]);
    forall d | d in InForce(root, levels[..i]) ensures d in InForce(root, levels[..j]) {
      if !(root.Some? && d == root.value) {
        var k :| 0 <= k < i && Limited(levels[..i][k]) && OwnDeadline(levels[..i][k]) == d;
        assert levels[..j][k] == levels[..i][k];
      }
    }
  }
}
