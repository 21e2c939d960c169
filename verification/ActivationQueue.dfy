/** The retry queue of ActiveWorkflowManager. An attempt runs from the firing of its timer to the end of
  * `add`, which awaits before and after it cleans the queue; other queue operations may come in between. */
module ActivationQueue {
  import opened Numbers

  type WorkflowId = string

  const INITIAL_TIMEOUT := 1000
  const MAX_TIMEOUT := 24 * 60 * 60 * 1000

  /** What the queue knows of a workflow: whether the data it was queued with names and holds an active version. */
  datatype Workflow = Workflow(hasVersionId: bool, hasVersion: bool)

  /** What a retry function has captured. */
  datatype Retry = Retry(workflowId: WorkflowId, mode: string, workflow: Workflow)

  /** `failures` is history: failed attempts since the workflow was queued. */
  datatype Activation = Activation(mode: string, workflow: Workflow, lastTimeout: int, timer: nat, failures: nat)

  datatype Timer = Timer(retry: Retry, delay: int)

  /** An attempt under way; `cleaned` once `add` has removed the workflow from the queue. */
  datatype Attempt = Attempt(retry: Retry, cleaned: bool)

  /** `armed` are the pending timers of the runtime, `running` the attempts, named by the timer that fired. */
  datatype Queue = Queue(
    multiMain: bool,
    activations: map<WorkflowId, Activation>,
    armed: map<nat, Timer>,
    running: map<nat, Attempt>,
    nextTimer: nat)

  function Fresh(multiMain: bool): Queue {
    Queue(multiMain, map[], map[], map[], 0)
  }

  function Pow2(k: nat): nat {
    if k == 0 then 1 else 2 * Pow2(k - 1)
  }

  /** The delay owed after `k` failures in a row. */
  function Backoff(k: nat): int {
    Min(INITIAL_TIMEOUT * Pow2(k), MAX_TIMEOUT)
  }

  datatype Op =
    | Enqueue(retry: Retry)
    | Remove(id: WorkflowId)
    | RemoveAll
    | Fire(timer: nat)
    | Clean(timer: nat)
    | End(timer: nat, threw: bool)

  /** `add` returns before it cleans the queue: in a multi-main setup it leaves the work to the leader, and
    * on startup or a change of leader it skips a workflow without an active version. Both callers of the
    * queue have loaded an active version, see SingleMainInStepIff. */
  predicate ReturnsEarly(multiMain: bool, r: Retry) {
    if multiMain then r.workflow.hasVersionId
    else r.mode in ["init", "leadershipChange"] && !r.workflow.hasVersion
  }

  predicate CanClean(multiMain: bool, r: Retry) {
    !multiMain && r.workflow.hasVersion
  }

  predicate Possible(q: Queue, op: Op) {
    match op
    case Fire(t) => t in q.armed
    case Clean(t) => t in q.running && !q.running[t].cleaned && CanClean(q.multiMain, q.running[t].retry)
    case End(t, threw) => t in q.running
      && (q.running[t].cleaned || threw != ReturnsEarly(q.multiMain, q.running[t].retry))
    case _ => true
  }

  function Removed(q: Queue, id: WorkflowId): Queue {
    if id in q.activations then
      q.(activations := q.activations - {id}, armed := q.armed - {q.activations[id].timer})
    else q
  }

  /** Sets the next timer for `r` and names it in the entry `a` of its workflow. */
  function Armed(q: Queue, r: Retry, a: Activation): Queue {
    q.(activations := q.activations[r.workflowId := a.(timer := q.nextTimer)],
       armed := q.armed[q.nextTimer := Timer(r, a.lastTimeout)],
       nextTimer := q.nextTimer + 1)
  }

  function NewEntry(r: Retry): Activation {
    Activation(r.mode, r.workflow, INITIAL_TIMEOUT, 0, 0)
  }

  function Doubled(a: Activation): Activation {
    a.(lastTimeout := if a.lastTimeout < MAX_TIMEOUT then Min(a.lastTimeout * 2, MAX_TIMEOUT) else a.lastTimeout,
       failures := a.failures + 1)
  }

  function Ended(q: Queue, t: nat): Queue {
    q.(running := q.running - {t})
  }

  function Step(q: Queue, op: Op): Queue
    requires Possible(q, op)
  {
    match op
    case Enqueue(r) => Armed(Removed(q, r.workflowId), r, NewEntry(r))
    case Remove(id) => Removed(q, id)
    case RemoveAll =>
      q.(activations := map[], armed := map t | t in q.armed && !OwnTimer(q, t) :: q.armed[t])
    case Fire(t) => q.(armed := q.armed - {t}, running := q.running[t := Attempt(q.armed[t].retry, false)])
    case Clean(t) =>
      Removed(q.(running := q.running[t := q.running[t].(cleaned := true)]), q.running[t].retry.workflowId)
    case End(t, threw) =>
      var r := q.running[t].retry;
      if threw && r.workflowId in q.activations
      then Armed(Ended(q, t), r, Doubled(q.activations[r.workflowId]))
      else Ended(q, t)
  }

  predicate OwnTimer(q: Queue, t: nat) {
    && t in q.armed
    && var id := q.armed[t].retry.workflowId; id in q.activations && q.activations[id].timer == t
  }

  /** The failing attempt finds no entry of its workflow, and its error handler throws a TypeError. */
  predicate LookupUndefined(q: Queue, op: Op)
    requires Possible(q, op)
  {
    op.End? && op.threw && q.running[op.timer].retry.workflowId !in q.activations
  }

  /** The entry of `id` waits for the timer it names, or for the attempt that timer started. */
  predicate Awaited(q: Queue, id: WorkflowId)
    requires id in q.activations
  {
    var a := q.activations[id];
    || (a.timer in q.armed && q.armed[a.timer].retry.workflowId == id && q.armed[a.timer].delay == a.lastTimeout)
    || (a.timer in q.running && a.timer !in q.armed
        && q.running[a.timer].retry.workflowId == id && !q.running[a.timer].cleaned)
  }

  /** Each queued workflow is awaited, every armed timer is named by the entry of its workflow, and every
    * delay is the backoff owed. */
  ghost predicate InStep(q: Queue) {
    && (forall id :: id in q.activations ==>
          q.activations[id].lastTimeout == Backoff(q.activations[id].failures) && Awaited(q, id))
    && (forall t :: t in q.armed ==> t < q.nextTimer && t !in q.running && OwnTimer(q, t))
    && (forall t :: t in q.running ==> t < q.nextTimer)
  }

  /** The entry of the attempt's workflow is still the one whose timer started the attempt. */
  predicate OwnEntryQueued(q: Queue, t: nat)
    requires t in q.running
  {
    var id := q.running[t].retry.workflowId;
    id in q.activations && q.activations[id].timer == t
  }

  /** A failed attempt re-arms a workflow that was queued again meanwhile and already has a timer. */
  predicate Overlaps(q: Queue, op: Op)
    requires Possible(q, op)
  {
    && op.End? && op.threw
    && var id := q.running[op.timer].retry.workflowId;
       id in q.activations && q.activations[id].timer in q.armed
  }

  /** An attempt returns and leaves its own entry behind. */
  predicate Strands(q: Queue, op: Op)
    requires Possible(q, op)
  {
    op.End? && !op.threw && OwnEntryQueued(q, op.timer)
  }

  lemma {:induction false} BackoffDoubles(k: nat)
    ensures Backoff(k + 1) == if Backoff(k) < MAX_TIMEOUT then Min(Backoff(k) * 2, MAX_TIMEOUT) else Backoff(k)
  {
    assert Pow2(k + 1) == 2 * Pow2(k);
  }

  /** The first retry comes after a second, the waits double sixteen times, and then it is once a day. */
  lemma BackoffInNumbers(k: nat)
    ensures Backoff(0) == 1000 && Backoff(1) == 2000 && Backoff(16) == 65536000
    ensures k >= 17 ==> Backoff(k) == 86400000
  {
    assert Pow2(4) == 16 && Pow2(8) == 256 && Pow2(12) == 4096 && Pow2(16) == 65536 && Pow2(17) == 131072;
    if k >= 17 {
      Pow2Grows(17, k);
    }
  }

  lemma {:induction false} Pow2Grows(j: nat, k: nat)
    requires j <= k
    ensures Pow2(j) <= Pow2(k)
    decreases k
  {
    if j < k {
      Pow2Grows(j, k - 1);
    }
  }

  lemma RemovedInStep(q: Queue, id: WorkflowId)
    requires InStep(q)
    ensures InStep(Removed(q, id)) && id !in Removed(q, id).activations
  {
    var r := Removed(q, id);
    if id in q.activations {
      forall t | t in r.armed ensures OwnTimer(r, t) {
        assert OwnTimer(q, t);
      }
      forall other | other in r.activations ensures Awaited(r, other) {
        assert Awaited(q, other) && Awaited(q, id);
      }
    }
  }

  lemma ArmedInStep(q: Queue, r: Retry, a: Activation)
    requires InStep(q) && a.lastTimeout == Backoff(a.failures)
    ensures InStep(Armed(q, r, a)) <==>
            !(r.workflowId in q.activations && q.activations[r.workflowId].timer in q.armed)
  {
    var id, s := r.workflowId, Armed(q, r, a);
    assert s.activations[id].timer == q.nextTimer && s.armed[q.nextTimer] == Timer(r, a.lastTimeout);
    if id in q.activations && q.activations[id].timer in q.armed {
      var t := q.activations[id].timer;
      assert Awaited(q, id);
      assert t in s.armed && !OwnTimer(s, t);
    } else {
      forall t | t in s.armed ensures t < s.nextTimer && t !in s.running && OwnTimer(s, t) {
        if t != q.nextTimer {
          assert OwnTimer(q, t);
        }
      }
      forall other | other in s.activations ensures Awaited(s, other) {
        if other != id {
          assert Awaited(q, other);
        }
      }
    }
  }

  lemma FireInStep(q: Queue, t: nat)
    requires InStep(q) && t in q.armed
    ensures InStep(Step(q, Fire(t)))
  {
    var r := Step(q, Fire(t));
    assert OwnTimer(q, t);
    forall u | u in r.armed ensures OwnTimer(r, u) {
      assert OwnTimer(q, u);
    }
    forall id | id in r.activations ensures Awaited(r, id) {
      assert Awaited(q, id);
    }
  }

  /** Cleaning removes whatever entry the workflow has, its own or a newer one. */
  lemma CleanInStep(q: Queue, t: nat)
    requires InStep(q) && Possible(q, Clean(t))
    ensures InStep(Step(q, Clean(t))) && q.running[t].retry.workflowId !in Step(q, Clean(t)).activations
  {
    var id, r := q.running[t].retry.workflowId, Step(q, Clean(t));
    RemovedInStep(q, id);
    forall other | other in r.activations ensures Awaited(r, other) {
      assert Awaited(Removed(q, id), other);
    }
    forall u | u in r.armed ensures OwnTimer(r, u) {
      assert OwnTimer(Removed(q, id), u);
    }
  }

  /** The end of an attempt leaves the entries of other attempts awaited. */
  lemma EndedAwaits(q: Queue, t: nat, id: WorkflowId)
    requires InStep(q) && t in q.running && id in q.activations
    ensures Awaited(Ended(q, t), id) <==> q.activations[id].timer != t
  {
    assert Awaited(q, id);
    if q.activations[id].timer == t {
      assert t !in q.armed;
    }
  }

  lemma EndedInStep(q: Queue, t: nat)
    requires InStep(q) && t in q.running
    ensures InStep(Ended(q, t)) <==> !OwnEntryQueued(q, t)
  {
    var r := Ended(q, t);
    forall id | id in q.activations ensures Awaited(r, id) <==> q.activations[id].timer != t {
      EndedAwaits(q, t, id);
    }
    forall u | u in r.armed ensures OwnTimer(r, u) {
      assert OwnTimer(q, u);
    }
    if OwnEntryQueued(q, t) {
      assert !Awaited(r, q.running[t].retry.workflowId);
    } else {
      forall id | id in q.activations ensures q.activations[id].timer != t {
        assert Awaited(q, id);
      }
    }
  }

  /** An attempt that fails while its own entry is queued arms the next timer with the next delay. */
  lemma OwnAttemptFails(q: Queue, t: nat)
    requires InStep(q) && Possible(q, End(t, true)) && OwnEntryQueued(q, t)
    ensures var id, r := q.running[t].retry.workflowId, Step(q, End(t, true));
            && !Overlaps(q, End(t, true)) && InStep(r)
            && id in r.activations && r.activations[id].failures == q.activations[id].failures + 1
            && r.activations[id].timer in r.armed
            && r.armed[r.activations[id].timer] == Timer(q.running[t].retry, Backoff(q.activations[id].failures + 1))
  {
    var id, r := q.running[t].retry.workflowId, Step(q, End(t, true));
    BackoffDoubles(q.activations[id].failures);
    assert Awaited(q, id) && t !in q.armed;
    forall u | u in r.armed ensures OwnTimer(r, u) {
      if u != q.nextTimer {
        assert OwnTimer(q, u);
      }
    }
    forall other | other in r.activations ensures Awaited(r, other) {
      if other != id {
        assert Awaited(q, other);
      }
    }
  }

  lemma FailureInStep(q: Queue, t: nat)
    requires InStep(q) && Possible(q, End(t, true))
    ensures InStep(Step(q, End(t, true))) <==> !Overlaps(q, End(t, true))
  {
    var r := q.running[t].retry;
    if OwnEntryQueued(q, t) {
      OwnAttemptFails(q, t);
    } else {
      EndedInStep(q, t);
      if r.workflowId in q.activations {
        BackoffDoubles(q.activations[r.workflowId].failures);
        ArmedInStep(Ended(q, t), r, Doubled(q.activations[r.workflowId]));
      }
    }
  }

  /** Every operation keeps the queue in step, except exactly a failed attempt that overlaps a new entry, and
    * an attempt that returns with its own entry still queued. */
  lemma StepInStepIff(q: Queue, op: Op)
    requires InStep(q) && Possible(q, op)
    ensures InStep(Step(q, op)) <==> !Overlaps(q, op) && !Strands(q, op)
  {
    match op
    case Enqueue(r) =>
      RemovedInStep(q, r.workflowId);
      assert Pow2(0) == 1;
      ArmedInStep(Removed(q, r.workflowId), r, NewEntry(r));
    case Remove(id) => RemovedInStep(q, id);
    case RemoveAll =>
    case Fire(t) => FireInStep(q, t);
    case Clean(t) => CleanInStep(q, t);
    case End(t, threw) =>
      if threw {
        FailureInStep(q, t);
      } else {
        EndedInStep(q, t);
      }
  }

  /** The workflow an operation is about, unless it is about all. */
  function Subject(q: Queue, op: Op): WorkflowId
    requires Possible(q, op) && !op.RemoveAll?
  {
    match op
    case Enqueue(r) => r.workflowId
    case Remove(id) => id
    case Fire(t) => q.armed[t].retry.workflowId
    case Clean(t) => q.running[t].retry.workflowId
    case End(t, _) => q.running[t].retry.workflowId
  }

  /** No operation on one workflow touches another one: neither its entry nor its timers nor its attempts. */
  lemma OthersUntouched(q: Queue, op: Op, id: WorkflowId)
    requires Named(q) && Possible(q, op) && !op.RemoveAll? && Subject(q, op) != id
    ensures var r := Step(q, op);
            && (id in r.activations <==> id in q.activations)
            && (id in q.activations ==> r.activations[id] == q.activations[id])
            && (forall t :: t in r.armed && r.armed[t].retry.workflowId == id <==>
                            t in q.armed && q.armed[t].retry.workflowId == id)
            && (forall t :: t in q.armed && q.armed[t].retry.workflowId == id ==> r.armed[t] == q.armed[t])
            && (forall t :: t in r.running && t !in r.armed && r.running[t].retry.workflowId == id ==>
                            t in q.running && r.running[t] == q.running[t])
  {
  }

  /** How an attempt that has not cleaned can go on. With several mains it never cleans: it returns, having
    * published, or throws for want of a version id. With one, a workflow with a version is activated or the
    * attempt throws; one without is skipped on startup and on a change of leader, and an error otherwise. */
  lemma WaysOn(q: Queue, t: nat)
    requires t in q.running && !q.running[t].cleaned
    ensures var r := q.running[t].retry;
            var cleans, ends, fails := Possible(q, Clean(t)), Possible(q, End(t, false)), Possible(q, End(t, true));
            && (q.multiMain && r.workflow.hasVersionId ==> !cleans && ends && !fails)
            && (q.multiMain && !r.workflow.hasVersionId ==> !cleans && !ends && fails)
            && (!q.multiMain && r.workflow.hasVersion ==> cleans && !ends && fails)
            && (!q.multiMain && !r.workflow.hasVersion && (r.mode == "init" || r.mode == "leadershipChange") ==>
                  !cleans && ends && !fails)
            && (!q.multiMain && !r.workflow.hasVersion && r.mode != "init" && r.mode != "leadershipChange" ==>
                  !cleans && !ends && fails)
  {
  }

  // ---------------------------------------------------------------- runs

  ghost predicate PossibleRun(q: Queue, ops: seq<Op>)
    decreases |ops|
  {
    ops == [] || (Possible(q, ops[0]) && PossibleRun(Step(q, ops[0]), ops[1..]))
  }

  ghost function After(q: Queue, ops: seq<Op>): Queue
    requires PossibleRun(q, ops)
    decreases |ops|
  {
    if ops == [] then q else After(Step(q, ops[0]), ops[1..])
  }

  ghost predicate AlwaysInStep(q: Queue, ops: seq<Op>)
    requires PossibleRun(q, ops)
    decreases |ops|
  {
    InStep(q) && (ops != [] ==> AlwaysInStep(Step(q, ops[0]), ops[1..]))
  }

  ghost predicate NeverSlips(q: Queue, ops: seq<Op>)
    requires PossibleRun(q, ops)
    decreases |ops|
  {
    ops != [] ==> !Overlaps(q, ops[0]) && !Strands(q, ops[0]) && NeverSlips(Step(q, ops[0]), ops[1..])
  }

  lemma {:induction false} InStepThroughoutIff(q: Queue, ops: seq<Op>)
    requires InStep(q) && PossibleRun(q, ops)
    ensures AlwaysInStep(q, ops) <==> NeverSlips(q, ops)
    decreases |ops|
  {
    if ops != [] {
      StepInStepIff(q, ops[0]);
      if !Overlaps(q, ops[0]) && !Strands(q, ops[0]) {
        InStepThroughoutIff(Step(q, ops[0]), ops[1..]);
      }
    }
  }

  ghost predicate NeverOverlaps(q: Queue, ops: seq<Op>)
    requires PossibleRun(q, ops)
    decreases |ops|
  {
    ops != [] ==> !Overlaps(q, ops[0]) && NeverOverlaps(Step(q, ops[0]), ops[1..])
  }

  /** Every retry function around was made for a workflow with an active version. */
  ghost predicate AllVersioned(q: Queue) {
    && (forall t :: t in q.armed ==> q.armed[t].retry.workflow.hasVersion)
    && (forall t :: t in q.running ==> q.running[t].retry.workflow.hasVersion)
  }

  predicate QueuesVersioned(op: Op) {
    op.Enqueue? ==> op.retry.workflow.hasVersion
  }

  lemma StepVersioned(q: Queue, op: Op)
    requires AllVersioned(q) && Possible(q, op) && QueuesVersioned(op)
    ensures AllVersioned(Step(q, op)) && Step(q, op).multiMain == q.multiMain
  {
  }

  /** With a single main and workflows that have a version, only overlaps put the queue out of step. */
  lemma {:induction false} SingleMainInStepIff(q: Queue, ops: seq<Op>)
    requires InStep(q) && AllVersioned(q) && !q.multiMain && PossibleRun(q, ops)
    requires forall i :: 0 <= i < |ops| ==> QueuesVersioned(ops[i])
    ensures AlwaysInStep(q, ops) <==> NeverOverlaps(q, ops)
    decreases |ops|
  {
    if ops != [] {
      StepInStepIff(q, ops[0]);
      StepVersioned(q, ops[0]);
      if ops[0].End? && OwnEntryQueued(q, ops[0].timer) {
        assert Awaited(q, q.running[ops[0].timer].retry.workflowId);
      }
      if !Overlaps(q, ops[0]) {
        SingleMainInStepIff(Step(q, ops[0]), ops[1..]);
      }
    }
  }

  /** A queue in step has at most one timer armed for a workflow, and it is the one of the current entry. */
  lemma OneTimerEach(q: Queue, t: nat, u: nat)
    requires InStep(q) && t in q.armed && u in q.armed
    requires q.armed[t].retry.workflowId == q.armed[u].retry.workflowId
    ensures t == u
    ensures q.armed[t].delay == Backoff(q.activations[q.armed[t].retry.workflowId].failures)
  {
    assert OwnTimer(q, t) && OwnTimer(q, u);
    assert Awaited(q, q.armed[t].retry.workflowId);
  }

  /** The four ways an attempt can go that nothing interrupts. */
  datatype Course = FailsBefore | FailsAfter | Activates | LeavesEarly

  function Steps(t: nat, course: Course): seq<Op> {
    match course
    case FailsBefore => [Fire(t), End(t, true)]
    case FailsAfter => [Fire(t), Clean(t), End(t, true)]
    case Activates => [Fire(t), Clean(t), End(t, false)]
    case LeavesEarly => [Fire(t), End(t, false)]
  }

  /** The state in which the attempt ends. */
  ghost function Before(q: Queue, t: nat, course: Course): Queue
    requires Possible(q, Fire(t))
    requires course.FailsAfter? || course.Activates? ==> Possible(Step(q, Fire(t)), Clean(t))
  {
    var fired := Step(q, Fire(t));
    if course.FailsAfter? || course.Activates? then Step(fired, Clean(t)) else fired
  }

  /** An attempt that nothing interrupts: its entry is gone exactly if `add` got to clean the queue; its
    * lookup is undefined exactly when it fails after that; failing before, it is armed again with the next
    * delay; and it strands its entry, which ends the retries, exactly when `add` returns early. */
  lemma UninterruptedAttempt(q: Queue, t: nat, course: Course)
    requires InStep(q) && t in q.armed && PossibleRun(q, Steps(t, course))
    ensures var retry, threw := q.armed[t].retry, course.FailsBefore? || course.FailsAfter?;
            var id, r := retry.workflowId, After(q, Steps(t, course));
            && (course.FailsAfter? || course.Activates? ==> Possible(Step(q, Fire(t)), Clean(t)))
            && Possible(Before(q, t, course), End(t, threw))
            && (LookupUndefined(Before(q, t, course), End(t, threw)) <==> course.FailsAfter?)
            && (id in r.activations <==> course.FailsBefore? || course.LeavesEarly?)
            && (course.FailsBefore? ==>
                  && r.activations[id].timer in r.armed
                  && r.armed[r.activations[id].timer] == Timer(retry, Backoff(q.activations[id].failures + 1)))
            && (course.LeavesEarly? <==> ReturnsEarly(q.multiMain, retry))
            && (InStep(r) <==> !course.LeavesEarly?)
            && (course.LeavesEarly? ==> Stranded(r, id))
  {
    var fired, id := Step(q, Fire(t)), q.armed[t].retry.workflowId;
    var ops := Steps(t, course);
    assert OwnTimer(q, t);
    FireInStep(q, t);
    assert OwnEntryQueued(fired, t);
    match course
    case FailsBefore =>
      Unfold2(q, ops);
      OwnAttemptFails(fired, t);
    case LeavesEarly =>
      Unfold2(q, ops);
      EndedInStep(fired, t);
      forall u | u in fired.armed ensures fired.armed[u].retry.workflowId != id {
        assert OwnTimer(fired, u);
      }
    case FailsAfter =>
      Unfold3(q, ops);
      CleanInStep(fired, t);
      EndedInStep(Step(fired, Clean(t)), t);
    case Activates =>
      Unfold3(q, ops);
      CleanInStep(fired, t);
      EndedInStep(Step(fired, Clean(t)), t);
  }

  lemma Unfold2(q: Queue, ops: seq<Op>)
    requires |ops| == 2 && PossibleRun(q, ops)
    ensures Possible(q, ops[0]) && Possible(Step(q, ops[0]), ops[1])
    ensures After(q, ops) == Step(Step(q, ops[0]), ops[1])
  {
    var r := Step(Step(q, ops[0]), ops[1]);
    assert ops[1..][1..] == [];
    assert After(r, []) == r;
  }

  lemma Unfold3(q: Queue, ops: seq<Op>)
    requires |ops| == 3 && PossibleRun(q, ops)
    ensures Possible(q, ops[0]) && Possible(Step(q, ops[0]), ops[1])
    ensures Possible(Step(Step(q, ops[0]), ops[1]), ops[2])
    ensures After(q, ops) == Step(Step(Step(q, ops[0]), ops[1]), ops[2])
  {
    Unfold2(Step(q, ops[0]), ops[1..]);
  }

  // ---------------------------------------------------------------- stranded workflows

  /** A queued workflow that nothing will retry: no timer of it is armed. */
  ghost predicate Stranded(q: Queue, id: WorkflowId) {
    id in q.activations && forall t :: t in q.armed ==> q.armed[t].retry.workflowId != id
  }

  /** Queues or removes the workflow, or belongs to another attempt for it. */
  predicate Touches(q: Queue, op: Op, id: WorkflowId)
    requires Possible(q, op)
  {
    match op
    case Enqueue(r) => r.workflowId == id
    case Remove(other) => other == id
    case RemoveAll => true
    case Fire(_) => false
    case Clean(t) => q.running[t].retry.workflowId == id
    case End(t, threw) => threw && q.running[t].retry.workflowId == id
  }

  ghost predicate NeverTouched(q: Queue, ops: seq<Op>, id: WorkflowId)
    requires PossibleRun(q, ops)
    decreases |ops|
  {
    ops != [] ==> !Touches(q, ops[0], id) && NeverTouched(Step(q, ops[0]), ops[1..], id)
  }

  /** The queue promises to keep on trying; a stranded workflow is never tried again by the queue itself. */
  lemma {:induction false} StrandedUntilTouched(q: Queue, ops: seq<Op>, id: WorkflowId)
    requires Stranded(q, id) && PossibleRun(q, ops) && NeverTouched(q, ops, id)
    ensures Stranded(After(q, ops), id)
    decreases |ops|
  {
    if ops != [] {
      var r := Step(q, ops[0]);
      assert id in r.activations;
      StrandedUntilTouched(r, ops[1..], id);
    }
  }

  // ---------------------------------------------------------------- concrete runs

  /** Two timers for one workflow: it is queued again while its attempt is under way, before or after the
    * attempt has cleaned the queue, and then the attempt fails. */
  lemma OverlapArmsTwice(late: bool)
    ensures var r := Retry("w", "update", Workflow(true, true));
            var ops := [Enqueue(r), Fire(0)] + (if late then [Clean(0)] else []) + [Enqueue(r), End(0, true)];
            && PossibleRun(Fresh(false), ops)
            && var q := After(Fresh(false), ops);
               q.armed == map[1 := Timer(r, 1000), 2 := Timer(r, 2000)]
               && "w" in q.activations && q.activations["w"].timer == 2
  {
    var r := Retry("w", "update", Workflow(true, true));
    var q1 := Step(Fresh(false), Enqueue(r));
    assert q1 == Queue(false, map["w" := Activation("update", r.workflow, 1000, 0, 0)], 
                      map[0 := Timer(r, 1000)], map[], 1);
    var q2 := Step(q1, Fire(0));
    assert q2 == Queue(false, q1.activations, map[], map[0 := Attempt(r, false)], 1);
    QueuedAgainFails(q2, r);
    var rest := [Enqueue(r), End(0, true)];
    if late {
      var q3 := Step(q2, Clean(0));
      assert q3 == Queue(false, map[], map[], map[0 := Attempt(r, true)], 1);
      QueuedAgainFails(q3, r);
      Prepend(q2, Clean(0), rest);
      Prepend(q1, Fire(0), [Clean(0)] + rest);
      Prepend(Fresh(false), Enqueue(r), [Fire(0)] + ([Clean(0)] + rest));
      assert [Enqueue(r)] + ([Fire(0)] + ([Clean(0)] + rest)) == [Enqueue(r), Fire(0)] + [Clean(0)] + rest;
    } else {
      Prepend(q1, Fire(0), rest);
      Prepend(Fresh(false), Enqueue(r), [Fire(0)] + rest);
      assert [Enqueue(r)] + ([Fire(0)] + rest) == [Enqueue(r), Fire(0)] + [] + rest;
    }
  }

  lemma Prepend(q: Queue, op: Op, ops: seq<Op>)
    requires Possible(q, op) && PossibleRun(Step(q, op), ops)
    ensures PossibleRun(q, [op] + ops) && After(q, [op] + ops) == After(Step(q, op), ops)
  {
    assert ([op] + ops)[1..] == ops;
  }

  lemma QueuedAgainFails(q: Queue, r: Retry)
    requires r == Retry("w", "update", Workflow(true, true))
    requires exists cleaned :: q == Queue(false, q.activations, map[], map[0 := Attempt(r, cleaned)], 1)
    requires q.activations.Keys <= {"w"} && ("w" in q.activations ==> q.activations["w"].timer == 0)
    ensures var ops := [Enqueue(r), End(0, true)];
            && PossibleRun(q, ops)
            && After(q, ops).armed == map[1 := Timer(r, 1000), 2 := Timer(r, 2000)]
            && "w" in After(q, ops).activations && After(q, ops).activations["w"].timer == 2
  {
    var q3 := Step(q, Enqueue(r));
    assert q3.armed == map[1 := Timer(r, 1000)] && q3.activations["w"] == Activation("update", r.workflow, 1000, 1, 0);
    var q4 := Step(q3, End(0, true));
    assert q4.armed == map[1 := Timer(r, 1000), 2 := Timer(r, 2000)];
    assert PossibleRun(q4, []) && After(q4, []) == q4;
    Prepend(q3, End(0, true), []);
    assert [End(0, true)] + [] == [End(0, true)];
    Prepend(q, Enqueue(r), [End(0, true)]);
    assert [Enqueue(r)] + [End(0, true)] == [Enqueue(r), End(0, true)];
  }

  /** An entry nothing waits for: in a multi-main setup the first retry publishes a command and returns. */
  lemma PublishingStrands()
    ensures var r := Retry("w", "init", Workflow(true, true));
            var ops := [Enqueue(r), Fire(0), End(0, false)];
            && PossibleRun(Fresh(true), ops)
            && var q := After(Fresh(true), ops);
               "w" in q.activations && q.armed == map[] && q.running == map[]
  {
    var r := Retry("w", "init", Workflow(true, true));
    var q1 := Step(Fresh(true), Enqueue(r));
    assert q1 == Queue(true, map["w" := Activation("init", r.workflow, 1000, 0, 0)], 
                      map[0 := Timer(r, 1000)], map[], 1);
    var q2 := Step(q1, Fire(0));
    assert q2.armed == map[] && q2.running == map[0 := Attempt(r, false)];
    var q3 := Step(q2, End(0, false));
    assert q3.running == map[];
    assert PossibleRun(q3, []) && After(q3, []) == q3;
    Prepend(q2, End(0, false), []);
    Prepend(q1, Fire(0), [End(0, false)] + []);
    Prepend(Fresh(true), Enqueue(r), [Fire(0)] + ([End(0, false)] + []));
    assert [Enqueue(r)] + ([Fire(0)] + ([End(0, false)] + [])) == [Enqueue(r), Fire(0), End(0, false)];
  }

  // ---------------------------------------------------------------- the manager

  /** What holds of every queue, in step or not: an armed timer that an entry names is one of its workflow. */
  ghost predicate Named(q: Queue) {
    && (forall id :: id in q.activations ==>
          var t := q.activations[id].timer;
          t < q.nextTimer && (t in q.armed ==> q.armed[t].retry.workflowId == id))
    && (forall t :: t in q.armed ==> t < q.nextTimer)
  }

  lemma StepNamed(q: Queue, op: Op)
    requires Named(q) && Possible(q, op)
    ensures Named(Step(q, op))
  {
  }

  lemma {:induction false} RunNamed(q: Queue, ops: seq<Op>)
    requires Named(q) && PossibleRun(q, ops)
    ensures Named(After(q, ops))
    decreases |ops|
  {
    if ops != [] {
      StepNamed(q, ops[0]);
      RunNamed(Step(q, ops[0]), ops[1..]);
    }
  }

  /** In every reachable state, in step or not, removing everything leaves no entry and only timers that no
    * entry named. */
  lemma RemoveAllLeaves(multiMain: bool, ops: seq<Op>, t: nat)
    requires PossibleRun(Fresh(multiMain), ops)
    ensures var q := After(Fresh(multiMain), ops);
            var r := Step(q, RemoveAll);
            && r.activations == map[]
            && (t in r.armed <==> t in q.armed && forall id :: id in q.activations ==> q.activations[id].timer != t)
  {
    RunNamed(Fresh(multiMain), ops);
    var q := After(Fresh(multiMain), ops);
    if t in q.armed && !OwnTimer(q, t) {
      forall id | id in q.activations ensures q.activations[id].timer != t {
      }
    }
  }

  /** `r` is what is left of `q` after some entries were removed with their timers. */
  ghost predicate SomeRemoved(q: Queue, r: Queue) {
    && (forall id :: id in r.activations ==> id in q.activations && r.activations[id] == q.activations[id])
    && (forall t :: t in r.armed ==> t in q.armed && r.armed[t] == q.armed[t])
    && (forall t :: t in q.armed ==>
          (t in r.armed <==> (OwnTimer(q, t) ==> q.armed[t].retry.workflowId in r.activations)))
  }

  lemma OneMoreRemoved(q: Queue, r: Queue, id: WorkflowId)
    requires Named(q) && SomeRemoved(q, r) && id in r.activations
    ensures SomeRemoved(q, Removed(r, id))
  {
    assert q.activations[id].timer in q.armed ==> OwnTimer(q, q.activations[id].timer);
  }

  lemma Fewer(m: map<WorkflowId, Activation>, id: WorkflowId)
    requires id in m
    ensures |m - {id}| < |m|
  {
    assert (m - {id}).Keys == m.Keys - {id};
  }

  lemma AllRemoved(q: Queue, r: Queue)
    requires SomeRemoved(q, r) && r.activations == map[]
    requires r.multiMain == q.multiMain && r.running == q.running && r.nextTimer == q.nextTimer
    ensures r == Step(q, RemoveAll) && (InStep(q) ==> r.armed == map[])
  {
    assert r.armed == Step(q, RemoveAll).armed;
    if InStep(q) {
      assert forall t :: t in q.armed ==> OwnTimer(q, t);
    }
  }

  class ActiveWorkflowManager {
    const multiMain: bool
    var queuedActivations: map<WorkflowId, Activation>
    var armed: map<nat, Timer>
    var running: map<nat, Attempt>
    var nextTimer: nat

    function View(): Queue
      reads this
    {
      Queue(multiMain, queuedActivations, armed, running, nextTimer)
    }

    constructor (multiMain: bool)
      ensures View() == Fresh(multiMain) && Named(View()) && InStep(View())
    {
      this.multiMain := multiMain;
      queuedActivations, armed, running, nextTimer := map[], map[], map[], 0;
    }

    method SetTimeout(retry: Retry, delay: int) returns (timer: nat)
      modifies this`armed, this`nextTimer
      ensures timer == old(nextTimer) && nextTimer == timer + 1 && armed == old(armed)[timer := Timer(retry, delay)]
    {
      timer := nextTimer;
      armed := armed[timer := Timer(retry, delay)];
      nextTimer := nextTimer + 1;
    }

    method AddQueuedWorkflowActivation(retry: Retry)
      modifies this
      ensures retry.workflowId in queuedActivations
      ensures queuedActivations[retry.workflowId] ==
              Activation(retry.mode, retry.workflow, 1000, old(nextTimer), 0)
      ensures old(nextTimer) in armed && armed[old(nextTimer)] == Timer(retry, 1000)
      ensures View() == Step(old(View()), Enqueue(retry))
    {
      RemoveQueuedWorkflowActivation(retry.workflowId);
      var timer := SetTimeout(retry, INITIAL_TIMEOUT);
      queuedActivations := queuedActivations[retry.workflowId :=
        Activation(retry.mode, retry.workflow, INITIAL_TIMEOUT, timer, 0)];
    }

    method RemoveQueuedWorkflowActivation(id: WorkflowId)
      modifies this`queuedActivations, this`armed
      ensures queuedActivations == old(queuedActivations) - {id}
      ensures armed == old(armed) - if id in old(queuedActivations) then {old(queuedActivations)[id].timer} else {}
      ensures View() == Step(old(View()), Remove(id))
    {
      if id in queuedActivations {
        armed := armed - {queuedActivations[id].timer};
        queuedActivations := queuedActivations - {id};
      }
    }

    /** Leaves no entry; the timers it leaves are those no entry named, of which a queue in step has none. */
    method RemoveAllQueuedWorkflowActivations()
      requires Named(View())
      modifies this`queuedActivations, this`armed
      ensures View() == Step(old(View()), RemoveAll)
      ensures queuedActivations == map[] && (InStep(old(View())) ==> armed == map[])
    {
      ghost var q := View();
      while queuedActivations != map[]
        invariant running == old(running) && nextTimer == old(nextTimer)
        invariant SomeRemoved(q, View())
        decreases |queuedActivations|
      {
        var id :| id in queuedActivations;
        OneMoreRemoved(q, View(), id);
        Fewer(queuedActivations, id);
        RemoveQueuedWorkflowActivation(id);
      }
      AllRemoved(q, View());
    }

    /** The runtime takes the timer off and starts the retry function. */
    method TimerFires(timer: nat)
      requires timer in armed
      modifies this`armed, this`running
      ensures View() == Step(old(View()), Fire(timer))
    {
      running := running[timer := Attempt(armed[timer].retry, false)];
      armed := armed - {timer};
    }

    /** `add` has set everything up, and makes sure that nothing is left in the queue. */
    method AddCleans(timer: nat)
      requires Possible(View(), Clean(timer))
      modifies this`queuedActivations, this`armed, this`running
      ensures View() == Step(old(View()), Clean(timer))
    {
      var attempt := running[timer];
      running := running[timer := attempt.(cleaned := true)];
      RemoveQueuedWorkflowActivation(attempt.retry.workflowId);
    }

    /** The rest of the retry function once `add` has ended; `undefinedLookup` when its error handler finds
      * no entry. */
    method AttemptEnds(timer: nat, threw: bool) returns (undefinedLookup: bool)
      requires Possible(View(), End(timer, threw))
      modifies this
      ensures View() == Step(old(View()), End(timer, threw))
      ensures undefinedLookup == old(LookupUndefined(View(), End(timer, threw)))
    {
      var retry := running[timer].retry;
      running := running - {timer};
      undefinedLookup := false;
      if threw {
        var id := retry.workflowId;
        if id !in queuedActivations {
          return true;
        }
        var lastTimeout := queuedActivations[id].lastTimeout;
        if lastTimeout < MAX_TIMEOUT {
          lastTimeout := Min(lastTimeout * 2, MAX_TIMEOUT);
        }
        var failures := queuedActivations[id].failures + 1;
        var again := queuedActivations[id].(lastTimeout := lastTimeout, failures := failures);
        queuedActivations := queuedActivations[id := again];
        var next := SetTimeout(retry, lastTimeout);
        queuedActivations := queuedActivations[id := queuedActivations[id].(timer := next)];
      }
    }
  }
}
