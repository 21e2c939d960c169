/** One process's side of the execution lifecycle: the `activeExecutions` map, the record objects it
  * points to, the `add` calls in flight and the capacity they hold. Every function below is one
  * uninterrupted stretch of the program; the stretches are cut at each `await`. */
module ProcessModel {
  import opened Wrappers
  import Q = ConcurrencyQueue

  type ExecutionId = string
  type Ticket = Q.Ticket

  datatype Status = New | Running | Waiting | Success | Error | Canceled | Crashed | Unknown

  /** State of a record's post-execute promise. `Resolved(None)` is a resolve without run data. */
  datatype Settlement = Pending | Resolved(run: Option<Status>) | Rejected

  /** A record object of `activeExecutions`. It outlives its map entry: the promise reactions hold it. */
  datatype Execution = Execution(
    id: ExecutionId,
    ticket: Ticket,
    metered: bool,
    startedAt: int,
    status: Status,
    settlement: Settlement,
    responsePromise: Option<nat>,
    attached: bool)

  /** Where an `add` call stands: before `reserve`, suspended in the queue, holding its reservation, past
    * the database write that admits it, or about to release and throw. `Dropped` calls were removed from
    * the queue and never continue. */
  datatype Phase = Begun | Throttled | Reserved | Admitted | Refused | Dropped

  datatype Call = Call(id: ExecutionId, resume: bool, metered: bool, phase: Phase)

  /** `executions` lists the record objects in registration order. `failed` and `released` are history:
    * the calls that threw, and one entry for each release of an acquired reservation. */
  datatype Process = Process(
    limit: nat,
    enabled: bool,
    queue: Q.State,
    calls: map<Ticket, Call>,
    executions: seq<Execution>,
    active: map<ExecutionId, nat>,
    responseModes: map<ExecutionId, string>,
    issued: nat,
    failed: set<Ticket>,
    released: multiset<Ticket>)

  ghost function Fresh(limit: nat, enabled: bool): Process {
    Process(limit, enabled, Q.Empty(limit), map[], [], map[], map[], 0, {}, multiset{})
  }

  /** What the outside can make this process do. `Admit` carries the database's answer. */
  datatype Op =
    | Begin(id: ExecutionId, resume: bool, metered: bool)
    | Throttle(ticket: Ticket)
    | Admit(ticket: Ticket, won: bool)
    | Abandon(ticket: Ticket)
    | Register(ticket: Ticket, now: int)
    | SetStatus(id: ExecutionId, status: Status)
    | AttachExecution(id: ExecutionId)
    | AttachResponse(id: ExecutionId, promise: nat)
    | SetResponseMode(id: ExecutionId, mode: string)
    | Finalize(id: ExecutionId, run: Option<Status>)
    | Stop(id: ExecutionId)
    | Drop(id: ExecutionId)
    | Disable

  predicate InPhase(p: Process, t: Ticket, phase: Phase) {
    t in p.calls && p.calls[t].phase == phase
  }

  ghost predicate Possible(p: Process, op: Op) {
    match op
    case Throttle(t) => InPhase(p, t, Begun)
    case Admit(t, _) => InPhase(p, t, Reserved)
    case Abandon(t) => InPhase(p, t, Refused)
    case Register(t, _) => InPhase(p, t, Admitted)
    case _ => true
  }

  ghost function WithPhase(p: Process, t: Ticket, phase: Phase): Process
    requires t in p.calls
  {
    p.(calls := p.calls[t := p.calls[t].(phase := phase)])
  }

  /** The queue resolved the `reserve` of its first waiting call, if it had one. */
  ghost function Resumed(calls: map<Ticket, Call>, waiting: seq<Q.Item>): (r: map<Ticket, Call>)
    ensures r.Keys == calls.Keys
  {
    if waiting != [] && waiting[0].ticket in calls
    then calls[waiting[0].ticket := calls[waiting[0].ticket].(phase := Reserved)]
    else calls
  }

  ghost function HeadResumed(p: Process): Process {
    p.(queue := Q.NextResolved(p.queue), calls := Resumed(p.calls, p.queue.waiting))
  }

  /** ConcurrencyCapacityReservation.release on an acquired reservation. */
  ghost function Released(p: Process, t: Ticket, metered: bool): Process {
    var q := p.(released := p.released + multiset{t});
    if p.enabled && metered
    then HeadResumed(q.(queue := p.queue.(capacity := p.queue.capacity + 1, granted := p.queue.granted - {t})))
    else q
  }

  ghost function Throttling(p: Process, t: Ticket): Process
    requires InPhase(p, t, Begun)
  {
    if !p.enabled || !p.calls[t].metered then WithPhase(p, t, Reserved)
    else
      WithPhase(p, t, if p.queue.capacity - 1 < 0 then Throttled else Reserved)
      .(queue := Q.Enqueued(p.queue, Q.Item(p.calls[t].id, t)))
  }

  /** Call `t` throws. */
  ghost function Leaving(p: Process, t: Ticket): Process {
    p.(calls := p.calls - {t}, failed := p.failed + {t})
  }

  ghost function Abandoned(p: Process, t: Ticket): Process
    requires InPhase(p, t, Refused)
  {
    Released(Leaving(p, t), t, p.calls[t].metered)
  }

  ghost predicate Recorded(p: Process, id: ExecutionId) {
    id in p.active && p.active[id] < |p.executions|
  }

  ghost function Current(p: Process, id: ExecutionId): Execution
    requires Recorded(p, id)
  {
    p.executions[p.active[id]]
  }

  /** The synchronous tail of `add`: the new record inherits from the record it overwrites. */
  ghost function NewRecord(p: Process, t: Ticket, now: int): Execution
    requires InPhase(p, t, Admitted)
  {
    var c := p.calls[t];
    if Recorded(p, c.id)
    then Execution(c.id, t, c.metered, Current(p, c.id).startedAt, Running, Pending,
                   Current(p, c.id).responsePromise, false)
    else Execution(c.id, t, c.metered, now, Running, Pending, None, false)
  }

  ghost function Registered(p: Process, t: Ticket, now: int): Process
    requires InPhase(p, t, Admitted)
  {
    p.(calls := p.calls - {t},
       executions := p.executions + [NewRecord(p, t, now)],
       active := p.active[p.calls[t].id := |p.executions|])
  }

  ghost function Updated(p: Process, id: ExecutionId, e: Execution): Process
    requires Recorded(p, id)
  {
    p.(executions := p.executions[p.active[id] := e])
  }

  ghost function Forgotten(p: Process, id: ExecutionId): Process {
    p.(active := p.active - {id}, responseModes := p.responseModes - {id})
  }

  /** Record `k` after its promise was resolved or rejected, and before anything has reacted to that. */
  ghost function Answered(p: Process, k: nat, how: Settlement): Process
    requires k < |p.executions|
  {
    p.(executions := p.executions[k := p.executions[k].(settlement := how)])
  }

  /** The `catch`/`finally` reaction of record `k`. It knows its record, but deletes by id. */
  ghost function Reacted(p: Process, k: nat): Process
    requires k < |p.executions|
  {
    var e := p.executions[k];
    var q := Released(p.(executions := p.executions[k := e.(attached := e.attached && e.status != Waiting)]),
                      e.ticket, e.metered);
    if e.status == Waiting then q else Forgotten(q, e.id)
  }

  /** Settling record `k` together with its reaction. */
  ghost function Settled(p: Process, k: nat, how: Settlement): Process
    requires k < |p.executions|
  {
    Reacted(Answered(p, k, how), k)
  }

  ghost function Finalized(p: Process, id: ExecutionId, run: Option<Status>): Process {
    if Recorded(p, id) && Current(p, id).settlement.Pending? then Settled(p, p.active[id], Resolved(run)) else p
  }

  ghost function Stopped(p: Process, id: ExecutionId): Process {
    if !Recorded(p, id) then p
    else if Current(p, id).status == Waiting then Forgotten(p, id)
    else if Current(p, id).settlement.Pending? then Settled(p, p.active[id], Rejected)
    else p
  }

  /** ConcurrencyControlService.remove: the call it finds stays suspended for ever. */
  ghost function Dropping(p: Process, id: ExecutionId): Process {
    var i := Q.FirstIndex(p.queue.waiting, id);
    if !p.enabled || i == |p.queue.waiting| || p.queue.waiting[i].ticket !in p.calls then p
    else HeadResumed(WithoutWaiter(p, i))
  }

  ghost function WithoutWaiter(p: Process, i: nat): Process
    requires i < |p.queue.waiting| && p.queue.waiting[i].ticket in p.calls
  {
    WithPhase(p, p.queue.waiting[i].ticket, Dropped)
    .(queue := p.queue.(capacity := p.queue.capacity + 1, waiting := p.queue.waiting[..i] + p.queue.waiting[i + 1..]))
  }

  ghost function Step(p: Process, op: Op): Process
    requires Possible(p, op)
  {
    match op
    case Begin(id, resume, metered) =>
      p.(calls := p.calls[p.issued := Call(id, resume, metered, Begun)], issued := p.issued + 1)
    case Throttle(t) => Throttling(p, t)
    case Admit(t, won) => WithPhase(p, t, if won then Admitted else Refused)
    case Abandon(t) => Abandoned(p, t)
    case Register(t, now) => Registered(p, t, now)
    case SetStatus(id, status) => if Recorded(p, id) then Updated(p, id, Current(p, id).(status := status)) else p
    case AttachExecution(id) => if Recorded(p, id) then Updated(p, id, Current(p, id).(attached := true)) else p
    case AttachResponse(id, promise) =>
      if Recorded(p, id) then Updated(p, id, Current(p, id).(responsePromise := Some(promise))) else p
    case SetResponseMode(id, mode) => p.(responseModes := p.responseModes[id := mode])
    case Finalize(id, run) => Finalized(p, id, run)
    case Stop(id) => Stopped(p, id)
    case Drop(id) => Dropping(p, id)
    case Disable => p.(enabled := false)
  }

  // ---------------------------------------------------------------- capacity

  /** Call `t` has reserved and not finished. */
  ghost predicate CallHolds(p: Process, t: Ticket) {
    t in p.calls && p.calls[t].phase in {Reserved, Admitted, Refused}
  }

  ghost predicate PendingOf(p: Process, k: nat, t: Ticket) {
    k < |p.executions| && p.executions[k].ticket == t && p.executions[k].settlement.Pending?
  }

  ghost predicate SettledOf(p: Process, k: nat, t: Ticket) {
    k < |p.executions| && p.executions[k].ticket == t && !p.executions[k].settlement.Pending?
  }

  /** Tickets name one call each, and a call turns into at most one record. */
  ghost predicate WellNumbered(p: Process) {
    && (forall t :: t in p.calls ==> t < p.issued && t !in p.failed)
    && (forall t :: t in p.failed ==> t < p.issued)
    && (forall k :: 0 <= k < |p.executions| ==>
          var t := p.executions[k].ticket; t < p.issued && t !in p.calls && t !in p.failed)
    && (forall j, k :: 0 <= j < k < |p.executions| ==> p.executions[j].ticket != p.executions[k].ticket)
    && (forall id :: id in p.active ==> p.active[id] < |p.executions| && p.executions[p.active[id]].id == id)
  }

  ghost predicate HasRecord(p: Process, t: Ticket) {
    exists k :: 0 <= k < |p.executions| && p.executions[k].ticket == t
  }

  /** A reservation has been released once if its call failed or its record settled, and never otherwise. */
  ghost predicate ReleasedOnce(p: Process) {
    && (forall t :: t in p.failed ==> p.released[t] == 1)
    && (forall k :: 0 <= k < |p.executions| ==>
          p.released[p.executions[k].ticket] == if p.executions[k].settlement.Pending? then 0 else 1)
    && (forall t :: t !in p.failed && !HasRecord(p, t) ==> p.released[t] == 0)
  }

  ghost predicate HoldsSlot(p: Process, t: Ticket) {
    (CallHolds(p, t) && p.calls[t].metered) || exists k: nat :: PendingOf(p, k, t) && p.executions[k].metered
  }

  ghost predicate Queued(p: Process, t: Ticket) {
    exists i :: 0 <= i < |p.queue.waiting| && p.queue.waiting[i].ticket == t
  }

  /** While the control is enabled, the slots in use are the metered calls that have reserved and not
    * finished and the metered records not yet settled, and the queue holds exactly the throttled calls. */
  ghost predicate SlotsAccounted(p: Process) {
    p.enabled ==>
      && Q.Conserved(p.queue, p.limit)
      && (forall t :: t in p.queue.granted <==> HoldsSlot(p, t))
      && (forall i :: 0 <= i < |p.queue.waiting| ==>
            InPhase(p, p.queue.waiting[i].ticket, Throttled) && p.calls[p.queue.waiting[i].ticket].metered)
      && (forall t :: InPhase(p, t, Throttled) ==> Queued(p, t))
  }

  ghost predicate Accounted(p: Process) {
    WellNumbered(p) && ReleasedOnce(p) && SlotsAccounted(p)
  }
}
