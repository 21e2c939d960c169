/** The timers of WaitTracker: when an entry and its timer go together, and when they come apart. What
  * startExecution does after dropping the entry is in Lifecycle. */
module WaitTracker {
  import opened Wrappers

  type ExecutionId = string

  /** `waiting` names the timer set for each entry; `armed` are the runtime's pending timers. */
  datatype Tracker = Tracker(
    tracking: bool,
    waiting: map<ExecutionId, nat>,
    armed: map<nat, ExecutionId>,
    nextTimer: nat)

  datatype Op =
    | StartTracking
    | Poll(due: seq<ExecutionId>)
    | StopExecution(id: ExecutionId)
    | StartExecution(id: ExecutionId)
    | TimerFires(timer: nat)
    | StopTracking

  predicate Possible(q: Tracker, op: Op) {
    op.TimerFires? ==> op.timer in q.armed
  }

  function Tracked(q: Tracker, id: ExecutionId): Tracker {
    if id in q.waiting then q
    else q.(waiting := q.waiting[id := q.nextTimer], armed := q.armed[q.nextTimer := id], nextTimer := q.nextTimer + 1)
  }

  function Polled(q: Tracker, due: seq<ExecutionId>): Tracker
    decreases |due|
  {
    if due == [] then q else Tracked(Polled(q, due[..|due| - 1]), due[|due| - 1])
  }

  function Step(q: Tracker, op: Op): Tracker
    requires Possible(q, op)
  {
    match op
    case StartTracking => q.(tracking := true)
    case Poll(due) => Polled(q, due)
    case StopExecution(id) =>
      if id in q.waiting then q.(waiting := q.waiting - {id}, armed := q.armed - {q.waiting[id]}) else q
    case StartExecution(id) => q.(waiting := q.waiting - {id})
    case TimerFires(t) => q.(waiting := q.waiting - {q.armed[t]}, armed := q.armed - {t})
    case StopTracking => if q.tracking then q.(armed := q.armed - q.waiting.Values) else q
  }

  predicate Owned(q: Tracker, t: nat) {
    t in q.armed && q.armed[t] in q.waiting && q.waiting[q.armed[t]] == t
  }

  /** Entries and armed timers correspond one to one. */
  ghost predicate InStep(q: Tracker) {
    && (forall id :: id in q.waiting ==> q.waiting[id] in q.armed && q.armed[q.waiting[id]] == id)
    && (forall t :: t in q.armed ==> t < q.nextTimer && Owned(q, t))
  }

  lemma TrackedInStep(q: Tracker, id: ExecutionId)
    requires InStep(q)
    ensures InStep(Tracked(q, id))
  {
    forall t | t in Tracked(q, id).armed ensures Owned(Tracked(q, id), t) {
      assert t != q.nextTimer ==> Owned(q, t);
    }
  }

  lemma {:induction false} PolledInStep(q: Tracker, due: seq<ExecutionId>)
    requires InStep(q)
    ensures InStep(Polled(q, due))
    decreases |due|
  {
    if due != [] {
      PolledInStep(q, due[..|due| - 1]);
      TrackedInStep(Polled(q, due[..|due| - 1]), due[|due| - 1]);
    }
  }

  predicate Separates(q: Tracker, op: Op) {
    (op.StartExecution? && op.id in q.waiting) || (op.StopTracking? && q.tracking && q.waiting != map[])
  }

  /** Entries and timers come apart exactly when an execution is started by something other than its timer
    * while it is tracked, and when tracking stops while something is tracked. */
  lemma StepInStepIff(q: Tracker, op: Op)
    requires InStep(q) && Possible(q, op)
    ensures InStep(Step(q, op)) <==> !Separates(q, op)
  {
    var r := Step(q, op);
    match op
    case Poll(due) => PolledInStep(q, due);
    case StartExecution(id) =>
      if id in q.waiting {
        assert q.waiting[id] in r.armed && !Owned(r, q.waiting[id]);
      }
    case StopTracking =>
      if q.tracking && q.waiting != map[] {
        var id :| id in q.waiting;
        assert q.waiting[id] in q.waiting.Values;
      }
    case _ =>
      forall t | t in r.armed ensures Owned(r, t) {
        assert Owned(q, t);
      }
  }

  ghost predicate PossibleRun(q: Tracker, ops: seq<Op>)
    decreases |ops|
  {
    ops == [] || (Possible(q, ops[0]) && PossibleRun(Step(q, ops[0]), ops[1..]))
  }

  ghost function After(q: Tracker, ops: seq<Op>): Tracker
    requires PossibleRun(q, ops)
    decreases |ops|
  {
    if ops == [] then q else After(Step(q, ops[0]), ops[1..])
  }

  ghost predicate AlwaysInStep(q: Tracker, ops: seq<Op>)
    requires PossibleRun(q, ops)
    decreases |ops|
  {
    InStep(q) && (ops != [] ==> AlwaysInStep(Step(q, ops[0]), ops[1..]))
  }

  ghost predicate NeverSeparates(q: Tracker, ops: seq<Op>)
    requires PossibleRun(q, ops)
    decreases |ops|
  {
    ops != [] ==> !Separates(q, ops[0]) && NeverSeparates(Step(q, ops[0]), ops[1..])
  }

  /** The same over every run. */
  lemma {:induction false} InStepThroughoutIff(q: Tracker, ops: seq<Op>)
    requires InStep(q) && PossibleRun(q, ops)
    ensures AlwaysInStep(q, ops) <==> NeverSeparates(q, ops)
    decreases |ops|
  {
    if ops != [] {
      StepInStepIff(q, ops[0]);
      if !Separates(q, ops[0]) {
        InStepThroughoutIff(Step(q, ops[0]), ops[1..]);
      }
    }
  }

  // ---------------------------------------------------------------- what a poll does

  /** Timers are named in the order they are set. */
  ghost predicate Numbered(q: Tracker) {
    && (forall t :: t in q.armed ==> t < q.nextTimer)
    && (forall id :: id in q.waiting ==> q.waiting[id] < q.nextTimer)
  }

  /** The entries are the earlier ones, unchanged, and the due executions. A due execution that had none has a new
    * timer, armed for it; no earlier timer is lost, and no other timer is armed. */
  ghost predicate PollMeans(q: Tracker, due: seq<ExecutionId>, r: Tracker) {
    && r.tracking == q.tracking && q.nextTimer <= r.nextTimer
    && (forall id :: id in r.waiting <==> id in q.waiting || id in due)
    && (forall id :: id in q.waiting ==> r.waiting[id] == q.waiting[id])
    && (forall id :: id in due && id !in q.waiting ==>
          q.nextTimer <= r.waiting[id] && r.waiting[id] in r.armed && r.armed[r.waiting[id]] == id)
    && (forall t :: t in q.armed ==> t in r.armed && r.armed[t] == q.armed[t])
    && (forall t :: t in r.armed && t !in q.armed ==>
          r.armed[t] in due && r.armed[t] !in q.waiting && r.waiting[r.armed[t]] == t)
  }

  lemma TrackedMeans(q: Tracker, due: seq<ExecutionId>, r: Tracker, id: ExecutionId)
    requires Numbered(q) && Numbered(r) && PollMeans(q, due, r)
    ensures Numbered(Tracked(r, id)) && PollMeans(q, due + [id], Tracked(r, id))
  {
  }

  lemma {:induction false} PolledMeans(q: Tracker, due: seq<ExecutionId>)
    requires Numbered(q)
    ensures Numbered(Polled(q, due)) && PollMeans(q, due, Polled(q, due))
    decreases |due|
  {
    if due != [] {
      var last, rest := due[|due| - 1], due[..|due| - 1];
      PolledMeans(q, rest);
      TrackedMeans(q, rest, Polled(q, rest), last);
      assert due == rest + [last];
    }
  }

  /** An entry whose timer is gone. */
  ghost predicate Stranded(q: Tracker, id: ExecutionId) {
    id in q.waiting && forall t :: t in q.armed ==> q.armed[t] != id
  }

  lemma {:induction false} PolledKeepsEntry(q: Tracker, due: seq<ExecutionId>, id: ExecutionId)
    requires Stranded(q, id)
    ensures Stranded(Polled(q, due), id)
    decreases |due|
  {
    if due != [] {
      var before, last := Polled(q, due[..|due| - 1]), due[|due| - 1];
      PolledKeepsEntry(q, due[..|due| - 1], id);
      assert Tracked(before, last).waiting.Keys == before.waiting.Keys + {last};
    }
  }

  /** After tracking has stopped, the execution's entry makes every later poll skip it: taking tracking up
    * again does not wake it. Only a direct start or stop of the execution clears the entry. */
  lemma {:induction false} StrandedUntilTouched(q: Tracker, ops: seq<Op>, id: ExecutionId)
    requires Stranded(q, id) && PossibleRun(q, ops)
    requires forall i :: 0 <= i < |ops| ==> ops[i] != StopExecution(id) && ops[i] != StartExecution(id)
    ensures Stranded(After(q, ops), id)
    decreases |ops|
  {
    if ops != [] {
      var op, r := ops[0], Step(q, ops[0]);
      if op.Poll? {
        PolledKeepsEntry(q, op.due, id);
      }
      StrandedUntilTouched(r, ops[1..], id);
    }
  }

  /** Stopping the tracking strands every tracked execution. */
  lemma StopTrackingStrands(q: Tracker, id: ExecutionId)
    requires InStep(q) && q.tracking
    ensures Stranded(Step(q, StopTracking), id) <==> id in q.waiting
  {
    if id in q.waiting {
      var r := Step(q, StopTracking);
      assert q.waiting[id] in q.waiting.Values;
      forall t | t in r.armed ensures r.armed[t] != id {
        assert Owned(q, t);
      }
    }
  }

  class Service {
    var tracking: bool
    var waitingExecutions: map<ExecutionId, nat>
    var armed: map<nat, ExecutionId>
    var nextTimer: nat

    function View(): Tracker
      reads this
    {
      Tracker(tracking, waitingExecutions, armed, nextTimer)
    }

    ghost predicate Valid()
      reads this
    {
      Numbered(View())
    }

    constructor ()
      ensures View() == Tracker(false, map[], map[], 0) && InStep(View()) && Valid()
    {
      tracking, waitingExecutions, armed, nextTimer := false, map[], map[], 0;
    }

    method GetWaitingExecutions(executions: seq<ExecutionId>)
      requires Valid()
      modifies this
      ensures Valid() && PollMeans(old(View()), executions, View())
      ensures View() == Step(old(View()), Poll(executions))
    {
      PolledMeans(View(), executions);
      for i := 0 to |executions|
        invariant View() == Polled(old(View()), executions[..i])
      {
        var executionId := executions[i];
        assert executions[..i + 1][..i] == executions[..i];
        if executionId !in waitingExecutions {
          waitingExecutions := waitingExecutions[executionId := nextTimer];
          armed := armed[nextTimer := executionId];
          nextTimer := nextTimer + 1;
        }
      }
      assert executions[..|executions|] == executions;
    }

    method StopWaiting(executionId: ExecutionId)
      requires Valid()
      modifies this`waitingExecutions, this`armed
      ensures Valid() && waitingExecutions == old(waitingExecutions) - {executionId}
      ensures armed ==
              old(armed) - if executionId in old(waitingExecutions) then {old(waitingExecutions)[executionId]} else {}
      ensures View() == Step(old(View()), StopExecution(executionId))
    {
      if executionId !in waitingExecutions { return; }
      armed := armed - {waitingExecutions[executionId]};
      waitingExecutions := waitingExecutions - {executionId};
    }

    /** Called by its timer (`byTimer`, which the runtime has taken off) or by anything else. */
    method BeginStart(executionId: ExecutionId, byTimer: Option<nat>)
      requires Valid() && (byTimer.Some? ==> byTimer.value in armed && armed[byTimer.value] == executionId)
      modifies this`waitingExecutions, this`armed
      ensures Valid() && waitingExecutions == old(waitingExecutions) - {executionId}
      ensures armed == old(armed) - if byTimer.Some? then {byTimer.value} else {}
      ensures View() ==
              Step(old(View()), if byTimer.Some? then TimerFires(byTimer.value) else StartExecution(executionId))
    {
      if byTimer.Some? { armed := armed - {byTimer.value}; }
      waitingExecutions := waitingExecutions - {executionId};
    }

    method EndTracking()
      requires Valid()
      modifies this`armed
      ensures Valid()
      ensures forall t :: t in armed <==>
                t in old(armed) && !(tracking && exists id :: id in waitingExecutions && waitingExecutions[id] == t)
      ensures forall t :: t in armed ==> armed[t] == old(armed)[t]
      ensures View() == Step(old(View()), StopTracking)
    {
      if !tracking { return; }
      var ids := waitingExecutions.Keys;
      ghost var cleared: set<nat> := {};
      while ids != {}
        invariant ids <= waitingExecutions.Keys
        invariant tracking && waitingExecutions == old(waitingExecutions) && nextTimer == old(nextTimer)
        invariant armed == old(armed) - cleared
        invariant forall id :: id in waitingExecutions && id !in ids ==> waitingExecutions[id] in cleared
        invariant cleared <= waitingExecutions.Values
        decreases |ids|
      {
        var id :| id in ids;
        armed := armed - {waitingExecutions[id]};
        cleared := cleared + {waitingExecutions[id]};
        ids := ids - {id};
      }
      assert cleared == waitingExecutions.Values;
    }
  }
}
