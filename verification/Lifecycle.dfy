/** Several processes over one table of execution rows: who may run an execution, how often it can be
  * resumed, and which child completions wake which parents. */
module Lifecycle {
  import opened Wrappers
  import opened ProcessModel
  import Cap = ProcessCapacity
  import Rec = ProcessRecords

  /** A database row. `parks` and `resumes` are history: how often the row entered and was claimed out of
    * 'waiting'. */
  datatype Row = Row(status: Status, parks: nat, resumes: nat)

  /** The run admitted for one `add` call. It is live until it writes its final or waiting status. */
  datatype Run = Run(pid: nat, ticket: Ticket)

  datatype Parent = Parent(id: ExecutionId, shouldResume: Option<bool>)

  /** One call of WaitTracker.startExecution, and what called it: nothing here (timer, webhook, user), or
    * the completion of record `record` watched by the earlier call `waker`. */
  datatype Wake = Wake(pid: nat, ticket: Ticket, id: ExecutionId, cause: Option<Cause>)
  datatype Cause = Cause(waker: nat, record: nat)

  /** `watches` are the completions being waited for; `watched` is history: the calls that have begun to. */
  datatype System = System(
    regular: bool,
    parents: map<ExecutionId, Parent>,
    rows: map<ExecutionId, Row>,
    procs: seq<Process>,
    live: map<Run, ExecutionId>,
    wakes: seq<Wake>,
    watches: set<Cause>,
    watched: set<nat>)

  datatype Event =
    | Create(pid: nat, id: ExecutionId, metered: bool)
    | Local(pid: nat, op: Op)
    | Claim(pid: nat, ticket: Ticket)
    | ClaimFails(pid: nat, ticket: Ticket)
    | SetRunning(run: Run)
    | Park(run: Run)
    | Finish(run: Run, status: Status)
    | External(id: ExecutionId, status: Status)
    | StartExecution(pid: nat, id: ExecutionId, metered: bool)
    | Watch(waker: nat)
    | Cascade(cause: Cause, metered: bool)

  function ShouldRestartParent(parent: Option<Parent>): bool {
    match parent
    case None => false
    case Some(p) => if p.shouldResume.None? then true else p.shouldResume.value
  }

  function ParentOf(s: System, id: ExecutionId): Option<Parent> {
    if id in s.parents then Some(s.parents[id]) else None
  }

  ghost predicate IsLive(s: System, run: Run) {
    run in s.live && run.pid < |s.procs| && HasRecord(s.procs[run.pid], run.ticket) && s.live[run] in s.rows
  }

  /** The results a child's promise resolved with let its parent continue. */
  predicate Completed(settlement: Settlement) {
    settlement.Resolved? && settlement.run.Some? && settlement.run.value != Waiting
  }

  ghost predicate Enabled(s: System, e: Event) {
    match e
    case Create(pid, id, _) => pid < |s.procs| && id !in s.rows
    case Local(pid, op) =>
      && pid < |s.procs| && Possible(s.procs[pid], op)
      && !op.Admit? && (op.Begin? ==> op.resume)
    case Claim(pid, t) => pid < |s.procs| && InPhase(s.procs[pid], t, Reserved)
    case ClaimFails(pid, t) => pid < |s.procs| && InPhase(s.procs[pid], t, Reserved)
    case SetRunning(run) => IsLive(s, run)
    case Park(run) => IsLive(s, run)
    case Finish(run, status) => IsLive(s, run) && status != Waiting
    case External(id, status) => id in s.rows && status != Waiting
    case StartExecution(pid, id, _) => pid < |s.procs|
    case Watch(w) =>
      && w < |s.wakes| && w !in s.watched && s.wakes[w].pid < |s.procs|
      && HasRecord(s.procs[s.wakes[w].pid], s.wakes[w].ticket)
      && Recorded(s.procs[s.wakes[w].pid], s.wakes[w].id)
      && ShouldRestartParent(ParentOf(s, s.wakes[w].id))
    case Cascade(c, _) =>
      && c in s.watches && c.waker < |s.wakes| && s.wakes[c.waker].pid < |s.procs|
      && c.record < |s.procs[s.wakes[c.waker].pid].executions|
      && Completed(s.procs[s.wakes[c.waker].pid].executions[c.record].settlement)
      && s.wakes[c.waker].id in s.parents
  }

  ghost function WithProc(s: System, pid: nat, op: Op): System
    requires pid < |s.procs| && Possible(s.procs[pid], op)
  {
    s.(procs := s.procs[pid := Step(s.procs[pid], op)])
  }

  ghost function WithStatus(s: System, id: ExecutionId, status: Status): System
    requires id in s.rows
  {
    s.(rows := s.rows[id := s.rows[id].(status := status)])
  }

  /** `updateExistingExecution` with `requireStatus: 'waiting'`: compare and set. */
  predicate CanClaim(s: System, id: ExecutionId) {
    id in s.rows && s.rows[id].status == Waiting
  }

  ghost function Claimed(s: System, pid: nat, t: Ticket): System
    requires pid < |s.procs| && InPhase(s.procs[pid], t, Reserved)
  {
    var c := s.procs[pid].calls[t];
    if !c.resume then
      var q := WithProc(s, pid, Admit(t, true));
      if s.regular && c.id in s.rows then WithStatus(q, c.id, Running) else q
    else if CanClaim(s, c.id) then
      WithProc(s, pid, Admit(t, true))
      .(rows := s.rows[c.id := Row(Running, s.rows[c.id].parks, s.rows[c.id].resumes + 1)],
        live := s.live[Run(pid, t) := c.id])
    else WithProc(s, pid, Admit(t, false))
  }

  ghost function Started(s: System, pid: nat, id: ExecutionId, metered: bool, cause: Option<Cause>): System
    requires pid < |s.procs|
  {
    WithProc(s, pid, Begin(id, true, metered)).(wakes := s.wakes + [Wake(pid, s.procs[pid].issued, id, cause)])
  }

  ghost function Next(s: System, e: Event): System
    requires Enabled(s, e)
  {
    match e
    case Create(pid, id, metered) =>
      WithProc(s, pid, Begin(id, false, metered))
      .(rows := s.rows[id := Row(New, 0, 0)], live := s.live[Run(pid, s.procs[pid].issued) := id])
    case Local(pid, op) =>
      var q := WithProc(s, pid, op);
      if op.Abandon? then q.(live := s.live - {Run(pid, op.ticket)}) else q
    case Claim(pid, t) => Claimed(s, pid, t)
    case ClaimFails(pid, t) => WithProc(s, pid, Admit(t, false))
    case SetRunning(run) => WithStatus(s, s.live[run], Running)
    case Park(run) =>
      s.(rows := s.rows[s.live[run] := Row(Waiting, s.rows[s.live[run]].parks + 1, s.rows[s.live[run]].resumes)],
         live := s.live - {run})
    case Finish(run, status) => WithStatus(s, s.live[run], status).(live := s.live - {run})
    case External(id, status) => WithStatus(s, id, status)
    case StartExecution(pid, id, metered) => Started(s, pid, id, metered, None)
    case Watch(w) =>
      s.(watches := s.watches + {Cause(w, s.procs[s.wakes[w].pid].active[s.wakes[w].id])}, watched := s.watched + {w})
    case Cascade(c, metered) =>
      Started(s, s.wakes[c.waker].pid, s.parents[s.wakes[c.waker].id].id, metered, Some(c))
      .(watches := s.watches - {c})
  }

  ghost predicate Initial(s: System) {
    && s.rows == map[] && s.live == map[] && s.wakes == [] && s.watches == {} && s.watched == {}
    && (forall p :: 0 <= p < |s.procs| ==> exists limit, enabled :: s.procs[p] == Fresh(limit, enabled))
  }

  ghost predicate EnabledRun(s: System, es: seq<Event>)
    decreases |es|
  {
    es == [] || (Enabled(s, es[0]) && EnabledRun(Next(s, es[0]), es[1..]))
  }

  ghost function After(s: System, es: seq<Event>): System
    requires EnabledRun(s, es)
    decreases |es|
  {
    if es == [] then s else After(Next(s, es[0]), es[1..])
  }

  // ---------------------------------------------------------------- what an event does to the processes

  datatype Move = Move(pid: nat, op: Op)

  /** The step an event makes in a process, if it makes one. */
  ghost function MoveOf(s: System, e: Event): Option<Move>
    requires Enabled(s, e)
  {
    match e
    case Create(pid, id, metered) => Some(Move(pid, Begin(id, false, metered)))
    case Local(pid, op) => Some(Move(pid, op))
    case Claim(pid, t) =>
      var c := s.procs[pid].calls[t];
      Some(Move(pid, Admit(t, !c.resume || CanClaim(s, c.id))))
    case ClaimFails(pid, t) => Some(Move(pid, Admit(t, false)))
    case StartExecution(pid, id, metered) => Some(Move(pid, Begin(id, true, metered)))
    case Cascade(c, metered) =>
      Some(Move(s.wakes[c.waker].pid, Begin(s.parents[s.wakes[c.waker].id].id, true, metered)))
    case _ => None
  }

  ghost predicate Moves(s: System, m: Option<Move>, r: System) {
    match m
    case None => r.procs == s.procs
    case Some(Move(pid, op)) =>
      pid < |s.procs| && Possible(s.procs[pid], op) && r.procs == s.procs[pid := Step(s.procs[pid], op)]
  }

  lemma NextMoves(s: System, e: Event)
    requires Enabled(s, e)
    ensures Moves(s, MoveOf(s, e), Next(s, e))
  {
  }

  /** The account of reservations holds in every process. */
  ghost predicate AllAccounted(s: System) {
    forall i :: 0 <= i < |s.procs| ==> Accounted(s.procs[i])
  }

  lemma NextAccounted(s: System, e: Event)
    requires AllAccounted(s) && Enabled(s, e)
    ensures AllAccounted(Next(s, e))
  {
    NextMoves(s, e);
    if MoveOf(s, e).Some? {
      Cap.StepAccounts(s.procs[MoveOf(s, e).value.pid], MoveOf(s, e).value.op);
    }
  }

  /** Records keep their id and ticket for ever, and a settled promise keeps its outcome. */
  ghost predicate Stable(p: Process, r: Process) {
    && p.issued <= r.issued && |p.executions| <= |r.executions|
    && (forall k :: 0 <= k < |p.executions| ==>
          var e, f := p.executions[k], r.executions[k];
          f.id == e.id && f.ticket == e.ticket && (e.settlement.Pending? || f.settlement == e.settlement))
  }

  lemma StepStable(p: Process, op: Op)
    requires Possible(p, op)
    ensures Stable(p, Step(p, op))
    ensures op.Begin? ==> Step(p, op).issued == p.issued + 1
  {
    if Cap.Settles(op) {
      if Recorded(p, op.id) {
        Cap.SettledEffect(p, p.active[op.id], if op.Stop? then Rejected else Resolved(op.run));
      }
    } else if !op.Begin? && !op.Abandon? && !op.Register? {
      Cap.StepSameRecords(p, op);
    }
  }

  ghost predicate AllStable(s: System, r: System) {
    |r.procs| == |s.procs| && forall i :: 0 <= i < |s.procs| ==> Stable(s.procs[i], r.procs[i])
  }

  lemma NextStable(s: System, e: Event)
    requires Enabled(s, e)
    ensures AllStable(s, Next(s, e))
  {
    NextMoves(s, e);
    if MoveOf(s, e).Some? {
      StepStable(s.procs[MoveOf(s, e).value.pid], MoveOf(s, e).value.op);
    }
  }

  // ---------------------------------------------------------------- one live run, bounded resumes

  /** At most one live run per execution, none while the row is waiting. */
  ghost predicate Exclusive(s: System) {
    && (forall r1, r2 :: r1 in s.live && r2 in s.live && s.live[r1] == s.live[r2] ==> r1 == r2)
    && (forall r :: r in s.live ==> s.live[r] in s.rows && s.rows[s.live[r]].status != Waiting)
  }

  /** Live runs belong to issued tickets, so a new call never takes over the name of a live run. */
  ghost predicate LiveIssued(s: System) {
    forall r :: r in s.live ==> r.pid < |s.procs| && r.ticket < s.procs[r.pid].issued
  }

  predicate Balanced(row: Row) {
    row.resumes + (if row.status == Waiting then 1 else 0) <= row.parks
  }

  ghost predicate ResumesBounded(s: System) {
    forall id :: id in s.rows ==> Balanced(s.rows[id])
  }

  /** What an event does to rows and live runs. */
  ghost predicate RowsEffect(s: System, e: Event, r: System)
    requires Enabled(s, e)
  {
    match e
    case Create(pid, id, _) =>
      r.rows == s.rows[id := Row(New, 0, 0)] && r.live == s.live[Run(pid, s.procs[pid].issued) := id]
    case Claim(pid, t) =>
      var c := s.procs[pid].calls[t];
      if c.resume && CanClaim(s, c.id) then
        && r.rows == s.rows[c.id := Row(Running, s.rows[c.id].parks, s.rows[c.id].resumes + 1)]
        && r.live == s.live[Run(pid, t) := c.id]
      else
        && r.live == s.live
        && r.rows == if !c.resume && s.regular && c.id in s.rows
                     then s.rows[c.id := s.rows[c.id].(status := Running)] else s.rows
    case SetRunning(run) =>
      r.rows == s.rows[s.live[run] := s.rows[s.live[run]].(status := Running)] && r.live == s.live
    case Park(run) =>
      && r.rows == s.rows[s.live[run] := Row(Waiting, s.rows[s.live[run]].parks + 1, s.rows[s.live[run]].resumes)]
      && r.live == s.live - {run}
    case Finish(run, status) =>
      r.rows == s.rows[s.live[run] := s.rows[s.live[run]].(status := status)] && r.live == s.live - {run}
    case External(id, status) => r.rows == s.rows[id := s.rows[id].(status := status)] && r.live == s.live
    case Local(pid, op) =>
      r.rows == s.rows && r.live == if op.Abandon? then s.live - {Run(pid, op.ticket)} else s.live
    case _ => r.rows == s.rows && r.live == s.live
  }

  lemma NextRows(s: System, e: Event)
    requires Enabled(s, e)
    ensures RowsEffect(s, e, Next(s, e))
  {
  }

  lemma EffectExclusive(s: System, e: Event, r: System)
    requires Exclusive(s) && Enabled(s, e) && RowsEffect(s, e, r)
    ensures Exclusive(r)
  {
  }

  lemma EffectBounded(s: System, e: Event, r: System)
    requires ResumesBounded(s) && Enabled(s, e) && RowsEffect(s, e, r)
    ensures ResumesBounded(r)
  {
  }

  lemma EffectIssued(s: System, e: Event, r: System)
    requires LiveIssued(s) && AllAccounted(s) && Enabled(s, e) && RowsEffect(s, e, r) && AllStable(s, r)
    requires Moves(s, MoveOf(s, e), r)
    requires e.Create? ==> r.procs[e.pid].issued == s.procs[e.pid].issued + 1
    ensures LiveIssued(r)
  {
    if e.Claim? {
      assert Accounted(s.procs[e.pid]);
    }
  }

  ghost predicate Safe(s: System) {
    AllAccounted(s) && Exclusive(s) && LiveIssued(s) && ResumesBounded(s)
  }

  lemma NextSafe(s: System, e: Event)
    requires Safe(s) && Enabled(s, e)
    ensures Safe(Next(s, e))
  {
    var r := Next(s, e);
    NextAccounted(s, e);
    NextMoves(s, e);
    NextStable(s, e);
    NextRows(s, e);
    EffectExclusive(s, e, r);
    EffectBounded(s, e, r);
    if e.Create? {
      StepStable(s.procs[e.pid], Begin(e.id, false, e.metered));
    }
    EffectIssued(s, e, r);
  }

  lemma {:induction false} RunSafe(s: System, es: seq<Event>)
    requires Safe(s) && EnabledRun(s, es)
    ensures Safe(After(s, es))
    decreases |es|
  {
    if es != [] {
      NextSafe(s, es[0]);
      RunSafe(Next(s, es[0]), es[1..]);
    }
  }

  lemma InitialSafe(s: System)
    requires Initial(s)
    ensures Safe(s)
  {
    forall i | 0 <= i < |s.procs| ensures Accounted(s.procs[i]) {
      var limit, enabled :| s.procs[i] == Fresh(limit, enabled);
      Cap.FreshAccounted(limit, enabled);
    }
  }

  /** Over every interleaving of any number of processes: one live run per execution at a time, none while
    * its row is waiting, and never more successful resumes than times the row entered 'waiting'. */
  lemma OneLiveRun(s: System, es: seq<Event>)
    requires Initial(s) && EnabledRun(s, es)
    ensures var r := After(s, es);
            && (forall a, b :: a in r.live && b in r.live && r.live[a] == r.live[b] ==> a == b)
            && (forall a :: a in r.live ==> r.live[a] in r.rows && r.rows[r.live[a]].status != Waiting)
            && (forall id :: id in r.rows ==> r.rows[id].resumes <= r.rows[id].parks)
            && (forall i :: 0 <= i < |r.procs| ==> Accounted(r.procs[i]))
  {
    InitialSafe(s);
    RunSafe(s, es);
    assert forall id :: id in After(s, es).rows ==> Balanced(After(s, es).rows[id]);
  }

  /** Of all the resumes that race for one waiting episode, one wins: between a successful claim and the
    * next park of the execution, every other claim of it is refused and changes no row and no live run. */
  ghost predicate NeverParks(s: System, es: seq<Event>, id: ExecutionId)
    requires EnabledRun(s, es)
    decreases |es|
  {
    es != [] ==> !(es[0].Park? && s.live[es[0].run] == id) && NeverParks(Next(s, es[0]), es[1..], id)
  }

  lemma {:induction false} NoClaimWithoutPark(s: System, es: seq<Event>, id: ExecutionId)
    requires EnabledRun(s, es) && id in s.rows && !CanClaim(s, id) && NeverParks(s, es, id)
    ensures id in After(s, es).rows && !CanClaim(After(s, es), id)
    decreases |es|
  {
    if es != [] {
      NextRows(s, es[0]);
      NoClaimWithoutPark(Next(s, es[0]), es[1..], id);
    }
  }

  lemma DuplicateResumesAbsorbed(s: System, es: seq<Event>, first: Event, second: Event, id: ExecutionId)
    requires first.Claim? && Enabled(s, first) && CanClaim(s, id)
    requires var c := s.procs[first.pid].calls[first.ticket]; c.id == id && c.resume
    requires EnabledRun(Next(s, first), es) && NeverParks(Next(s, first), es, id)
    requires second.Claim? && Enabled(After(Next(s, first), es), second)
    requires var c := After(Next(s, first), es).procs[second.pid].calls[second.ticket]; c.id == id && c.resume
    ensures var q := After(Next(s, first), es);
            var r := Next(q, second);
            r.rows == q.rows && r.live == q.live && InPhase(r.procs[second.pid], second.ticket, Refused)
            && Rec.SameShared(q.procs[second.pid], r.procs[second.pid])
  {
    NextRows(s, first);
    NoClaimWithoutPark(Next(s, first), es, id);
  }

  // ---------------------------------------------------------------- record maps, system-wide

  ghost predicate AllConsistent(s: System) {
    forall i :: 0 <= i < |s.procs| ==> Rec.Consistent(s.procs[i])
  }

  ghost predicate OrderlyEvent(s: System, e: Event)
    requires Enabled(s, e)
  {
    NextMoves(s, e);
    MoveOf(s, e).Some? ==> Rec.Orderly(s.procs[MoveOf(s, e).value.pid], MoveOf(s, e).value.op)
  }

  /** Whatever the other processes do, the record maps stay consistent exactly while every process keeps
    * to A1, A2 and A3. */
  lemma NextConsistentIff(s: System, e: Event)
    requires AllConsistent(s) && Enabled(s, e)
    ensures AllConsistent(Next(s, e)) <==> OrderlyEvent(s, e)
  {
    NextMoves(s, e);
    if MoveOf(s, e).Some? {
      var m, r := MoveOf(s, e).value, Next(s, e);
      Rec.StepConsistentIff(s.procs[m.pid], m.op);
      assert r.procs[m.pid] == Step(s.procs[m.pid], m.op);
      assert forall i :: 0 <= i < |s.procs| && i != m.pid ==> r.procs[i] == s.procs[i];
    }
  }

  ghost predicate AlwaysConsistent(s: System, es: seq<Event>)
    requires EnabledRun(s, es)
    decreases |es|
  {
    AllConsistent(s) && (es != [] ==> AlwaysConsistent(Next(s, es[0]), es[1..]))
  }

  ghost predicate OrderlyRun(s: System, es: seq<Event>)
    requires EnabledRun(s, es)
    decreases |es|
  {
    es != [] ==> OrderlyEvent(s, es[0]) && OrderlyRun(Next(s, es[0]), es[1..])
  }

  lemma InitialConsistent(s: System)
    requires Initial(s)
    ensures AllConsistent(s)
  {
    forall i | 0 <= i < |s.procs| ensures Rec.Consistent(s.procs[i]) {
      var limit, enabled :| s.procs[i] == Fresh(limit, enabled);
    }
  }

  /** Over every interleaving of any number of processes: the record maps are consistent in every state
    * exactly when every step of every process is orderly. */
  lemma {:induction false} ConsistentThroughoutIff(s: System, es: seq<Event>)
    requires AllConsistent(s) && EnabledRun(s, es)
    ensures AlwaysConsistent(s, es) <==> OrderlyRun(s, es)
    decreases |es|
  {
    if es != [] {
      NextConsistentIff(s, es[0]);
      if OrderlyEvent(s, es[0]) {
        ConsistentThroughoutIff(Next(s, es[0]), es[1..]);
      }
    }
  }

  /** From the start of the system: the record maps of all processes are consistent in every state exactly when
    * every step of every process keeps to A1, A2 and A3. */
  lemma ReachableConsistentIff(s: System, es: seq<Event>)
    requires Initial(s) && EnabledRun(s, es)
    ensures AlwaysConsistent(s, es) <==> OrderlyRun(s, es)
  {
    InitialConsistent(s);
    ConsistentThroughoutIff(s, es);
  }

  // ---------------------------------------------------------------- the child-to-parent cascade

  ghost predicate WakeInRange(s: System, n: nat) {
    n < |s.wakes| && s.wakes[n].pid < |s.procs|
  }

  /** Call `c.waker` got past the conditional update, and watches a record of its own execution, whose
    * parent is to be restarted. */
  ghost predicate WatchJustified(s: System, c: Cause) {
    && WakeInRange(s, c.waker)
    && var w := s.wakes[c.waker];
    && HasRecord(s.procs[w.pid], w.ticket)
    && c.record < |s.procs[w.pid].executions|
    && s.procs[w.pid].executions[c.record].id == w.id
    && w.id in s.parents && ShouldRestartParent(Some(s.parents[w.id]))
  }

  /** A call woken by a child: the child was watched by an earlier call of the same process and has settled
    * with results that are not 'waiting', and the call is for the parent of that child. */
  ghost predicate WakeJustified(s: System, m: nat)
    requires m < |s.wakes|
  {
    s.wakes[m].cause.Some? ==>
      var c := s.wakes[m].cause.value;
      && c.waker < m && WatchJustified(s, c)
      && s.wakes[c.waker].pid == s.wakes[m].pid
      && s.wakes[m].id == s.parents[s.wakes[c.waker].id].id
      && var settlement := s.procs[s.wakes[c.waker].pid].executions[c.record].settlement;
         settlement.Resolved? && settlement.run.Some? && settlement.run.value != Waiting
  }

  ghost predicate CascadeSound(s: System) {
    && (forall i :: 0 <= i < |s.procs| ==> Rec.IdsMatch(s.procs[i]))
    && (forall c :: c in s.watches ==> WatchJustified(s, c))
    && (forall m :: 0 <= m < |s.wakes| ==> WakeJustified(s, m))
  }

  /** What an event does to calls and watches. */
  ghost predicate WakesEffect(s: System, e: Event, r: System)
    requires Enabled(s, e)
  {
    && r.parents == s.parents && r.watched == (if e.Watch? then s.watched + {e.waker} else s.watched)
    && match e
       case StartExecution(pid, id, _) =>
         r.wakes == s.wakes + [Wake(pid, s.procs[pid].issued, id, None)] && r.watches == s.watches
       case Watch(w) =>
         r.wakes == s.wakes && r.watches == s.watches + {Cause(w, s.procs[s.wakes[w].pid].active[s.wakes[w].id])}
       case Cascade(c, _) =>
         && r.wakes == s.wakes + [Wake(s.wakes[c.waker].pid, s.procs[s.wakes[c.waker].pid].issued,
                                      s.parents[s.wakes[c.waker].id].id, Some(c))]
         && r.watches == s.watches - {c}
       case _ => r.wakes == s.wakes && r.watches == s.watches
  }

  ghost predicate SameWakes(s: System, r: System) {
    r.wakes == s.wakes && r.watches == s.watches && r.watched == s.watched && r.parents == s.parents
  }

  predicate IsRowEvent(e: Event) {
    e.SetRunning? || e.Park? || e.Finish? || e.External?
  }

  lemma RowEventWakes(s: System, e: Event)
    requires Enabled(s, e) && IsRowEvent(e)
    ensures SameWakes(s, Next(s, e))
  {
  }

  lemma ProcessEventWakes(s: System, e: Event)
    requires Enabled(s, e) && (e.Create? || e.Local? || e.Claim? || e.ClaimFails?)
    ensures SameWakes(s, Next(s, e))
  {
  }

  lemma NextWakes(s: System, e: Event)
    requires Enabled(s, e)
    ensures WakesEffect(s, e, Next(s, e))
  {
    if IsRowEvent(e) {
      RowEventWakes(s, e);
    } else if !e.StartExecution? && !e.Watch? && !e.Cascade? {
      ProcessEventWakes(s, e);
    }
  }

  lemma HasRecordStable(p: Process, r: Process, t: Ticket)
    requires Stable(p, r) && HasRecord(p, t)
    ensures HasRecord(r, t)
  {
    var k :| 0 <= k < |p.executions| && p.executions[k].ticket == t;
    assert r.executions[k].ticket == t;
  }

  lemma WatchStable(s: System, r: System, c: Cause)
    requires AllStable(s, r) && r.parents == s.parents && s.wakes <= r.wakes && WatchJustified(s, c)
    ensures WatchJustified(r, c)
  {
    var w := s.wakes[c.waker];
    assert r.wakes[c.waker] == w;
    HasRecordStable(s.procs[w.pid], r.procs[w.pid], w.ticket);
  }

  lemma WakeStable(s: System, r: System, m: nat)
    requires AllStable(s, r) && r.parents == s.parents && s.wakes <= r.wakes
    requires m < |s.wakes| && WakeJustified(s, m)
    ensures WakeJustified(r, m)
  {
    if s.wakes[m].cause.Some? {
      WatchStable(s, r, s.wakes[m].cause.value);
      assert r.wakes[m] == s.wakes[m] && r.wakes[s.wakes[m].cause.value.waker] == s.wakes[s.wakes[m].cause.value.waker];
    }
  }

  lemma EffectCascade(s: System, e: Event, r: System)
    requires CascadeSound(s) && Enabled(s, e) && WakesEffect(s, e, r) && AllStable(s, r)
    requires forall i :: 0 <= i < |r.procs| ==> Rec.IdsMatch(r.procs[i])
    requires !MoveOf(s, e).Some? ==> r.procs == s.procs
    ensures CascadeSound(r)
  {
    forall c | c in r.watches ensures WatchJustified(r, c) {
      if c in s.watches {
        WatchStable(s, r, c);
      } else {
        var w := s.wakes[e.waker];
        assert s.procs[w.pid].executions[c.record].id == w.id;
      }
    }
    forall m | 0 <= m < |r.wakes| ensures WakeJustified(r, m) {
      if m < |s.wakes| {
        WakeStable(s, r, m);
      } else if e.Cascade? {
        WatchStable(s, r, e.cause);
        assert r.wakes[e.cause.waker] == s.wakes[e.cause.waker];
      }
    }
  }

  lemma AccountedIdsMatch(s: System)
    requires AllAccounted(s)
    ensures forall i :: 0 <= i < |s.procs| ==> Rec.IdsMatch(s.procs[i])
  {
    assert forall i :: 0 <= i < |s.procs| ==> Accounted(s.procs[i]);
  }

  lemma {:induction false} RunCascade(s: System, es: seq<Event>)
    requires Safe(s) && CascadeSound(s) && EnabledRun(s, es)
    ensures CascadeSound(After(s, es))
    decreases |es|
  {
    if es != [] {
      var r := Next(s, es[0]);
      NextSafe(s, es[0]);
      NextStable(s, es[0]);
      NextWakes(s, es[0]);
      NextMoves(s, es[0]);
      AccountedIdsMatch(r);
      EffectCascade(s, es[0], r);
      RunCascade(r, es[1..]);
    }
  }

  /** The executions on the chain of wake-ups that led to call `m`, from the call that started it. */
  ghost function Lineage(s: System, m: nat): seq<ExecutionId>
    requires m < |s.wakes| && CascadeSound(s)
    decreases m
  {
    assert WakeJustified(s, m);
    if s.wakes[m].cause.None? then [s.wakes[m].id]
    else Lineage(s, s.wakes[m].cause.value.waker) + [s.wakes[m].id]
  }

  /** Some record of the execution has settled with defined results that are not 'waiting'. */
  ghost predicate HasCompleted(s: System, id: ExecutionId) {
    exists i, k :: 0 <= i < |s.procs| && 0 <= k < |s.procs[i].executions|
                   && s.procs[i].executions[k].id == id && s.procs[i].executions[k].settlement.Resolved?
                   && s.procs[i].executions[k].settlement.run.Some?
                   && s.procs[i].executions[k].settlement.run.value != Waiting
  }

  lemma {:induction false} LineageCompleted(s: System, m: nat)
    requires m < |s.wakes| && CascadeSound(s)
    ensures var l := Lineage(s, m);
            && l != [] && l[|l| - 1] == s.wakes[m].id
            && forall j :: 0 <= j < |l| - 1 ==>
                 && HasCompleted(s, l[j])
                 && l[j] in s.parents && s.parents[l[j]].id == l[j + 1] && s.parents[l[j]].shouldResume != Some(false)
    decreases m
  {
    assert WakeJustified(s, m);
    if s.wakes[m].cause.Some? {
      var c := s.wakes[m].cause.value;
      LineageCompleted(s, c.waker);
      assert HasCompleted(s, s.wakes[c.waker].id);
    }
  }

  /** The call was admitted: it is neither under way nor has it thrown. */
  ghost predicate CallWon(s: System, w: nat) {
    WakeInRange(s, w) && s.wakes[w].ticket !in s.procs[s.wakes[w].pid].calls
      && s.wakes[w].ticket !in s.procs[s.wakes[w].pid].failed
  }

  lemma JustifiedWon(s: System, c: Cause)
    requires AllAccounted(s) && WatchJustified(s, c)
    ensures CallWon(s, c.waker)
  {
    assert Accounted(s.procs[s.wakes[c.waker].pid]);
  }

  /** Call `m` was made for the parent of a child that an earlier call of the same process had resumed; the
    * parent was not told to stay; and the child's promise had resolved with results other than 'waiting'. */
  ghost predicate WokenByCompletion(s: System, m: nat)
    requires m < |s.wakes| && s.wakes[m].cause.Some?
  {
    var c := s.wakes[m].cause.value;
    && c.waker < m && s.wakes[c.waker].pid == s.wakes[m].pid < |s.procs|
    && var child, records := s.wakes[c.waker].id, s.procs[s.wakes[m].pid].executions;
       && c.record < |records| && records[c.record].id == child
       && records[c.record].settlement.Resolved? && records[c.record].settlement.run.Some?
       && records[c.record].settlement.run.value != Waiting
       && child in s.parents && s.parents[child].id == s.wakes[m].id
       && (s.parents[child].shouldResume == None || s.parents[child].shouldResume == Some(true))
  }

  lemma JustifiedWoken(s: System, m: nat)
    requires m < |s.wakes| && s.wakes[m].cause.Some? && WakeJustified(s, m)
    ensures WokenByCompletion(s, m)
  {
  }

  /** In every reachable state and along any chain of parents: each call of a cascade was made by a process
    * whose own call for the child won, after that child completed with results other than 'waiting'. */
  lemma CascadeFollowsCompletion(s: System, es: seq<Event>)
    requires Initial(s) && EnabledRun(s, es)
    ensures var r := After(s, es);
            && CascadeSound(r)
            && (forall c :: c in r.watches ==> CallWon(r, c.waker))
            && (forall m :: 0 <= m < |r.wakes| && r.wakes[m].cause.Some? ==>
                  WokenByCompletion(r, m) && CallWon(r, r.wakes[m].cause.value.waker))
            && forall m :: 0 <= m < |r.wakes| ==>
                 var l := Lineage(r, m);
                 forall j :: 0 <= j < |l| - 1 ==>
                   HasCompleted(r, l[j]) && l[j] in r.parents && r.parents[l[j]].id == l[j + 1]
  {
    InitialSafe(s);
    AccountedIdsMatch(s);
    RunSafe(s, es);
    RunCascade(s, es);
    var r := After(s, es);
    forall c | c in r.watches ensures CallWon(r, c.waker) {
      JustifiedWon(r, c);
    }
    forall m | 0 <= m < |r.wakes| && r.wakes[m].cause.Some?
      ensures WokenByCompletion(r, m) && CallWon(r, r.wakes[m].cause.value.waker)
    {
      assert WakeJustified(r, m);
      JustifiedWoken(r, m);
      JustifiedWon(r, r.wakes[m].cause.value);
    }
    forall m | 0 <= m < |r.wakes|
      ensures var l := Lineage(r, m);
              forall j :: 0 <= j < |l| - 1 ==>
                HasCompleted(r, l[j]) && l[j] in r.parents && r.parents[l[j]].id == l[j + 1]
    {
      LineageCompleted(r, m);
    }
  }

  /** The record watched has settled in a way that must not wake the parent: cancelled, without results, or
    * parked again. */
  ghost predicate SettledQuietly(s: System, c: Cause) {
    && WakeInRange(s, c.waker)
    && var records := s.procs[s.wakes[c.waker].pid].executions;
       c.record < |records| && records[c.record].settlement in {Rejected, Resolved(None), Resolved(Some(Waiting))}
  }

  lemma {:induction false} StaysQuiet(s: System, es: seq<Event>, c: Cause)
    requires EnabledRun(s, es) && SettledQuietly(s, c)
    ensures SettledQuietly(After(s, es), c)
    decreases |es|
  {
    if es != [] {
      NextStable(s, es[0]);
      NextWakes(s, es[0]);
      var r := Next(s, es[0]);
      assert r.wakes[c.waker] == s.wakes[c.waker];
      assert Stable(s.procs[s.wakes[c.waker].pid], r.procs[s.wakes[c.waker].pid]);
      StaysQuiet(r, es[1..], c);
    }
  }

  /** Over every run: a watch whose record has settled as cancelled, without results or as waiting has caused no
    * call and never will. */
  lemma QuietNeverWakes(s: System, before: seq<Event>, es: seq<Event>, c: Cause, m: nat)
    requires Initial(s) && EnabledRun(s, before) && EnabledRun(After(s, before), es)
    requires SettledQuietly(After(s, before), c)
    requires m < |After(After(s, before), es).wakes|
    ensures After(After(s, before), es).wakes[m].cause != Some(c)
  {
    var q := After(s, before);
    var r := After(q, es);
    InitialSafe(s);
    AccountedIdsMatch(s);
    RunSafe(s, before);
    RunCascade(s, before);
    RunCascade(q, es);
    StaysQuiet(q, es, c);
    if r.wakes[m].cause == Some(c) {
      JustifiedWoken(r, m);
    }
  }

  /** A call that won watches its child exactly when the child has a parent that was not told to stay; an older
    * parent without the flag is woken. */
  lemma WatchIff(s: System, w: nat)
    requires w < |s.wakes| && w !in s.watched && s.wakes[w].pid < |s.procs|
    requires HasRecord(s.procs[s.wakes[w].pid], s.wakes[w].ticket) && Recorded(s.procs[s.wakes[w].pid], s.wakes[w].id)
    ensures Enabled(s, Watch(w)) <==>
            s.wakes[w].id in s.parents && s.parents[s.wakes[w].id].shouldResume in {None, Some(true)}
  {
  }

  /** And once the child has completed, with success or with an error, the parent can be woken: by a call of the
    * same process, and only once. */
  lemma CompletionWakes(s: System, c: Cause, metered: bool)
    requires CascadeSound(s) && c in s.watches
    requires var e := s.procs[s.wakes[c.waker].pid].executions[c.record];
             e.settlement.Resolved? && e.settlement.run.Some? && e.settlement.run.value != Waiting
    ensures Enabled(s, Cascade(c, metered))
    ensures var r, w := Next(s, Cascade(c, metered)), s.wakes[c.waker];
            && |r.wakes| == |s.wakes| + 1 && c !in r.watches
            && r.wakes[|s.wakes|] == Wake(w.pid, s.procs[w.pid].issued, s.parents[w.id].id, Some(c))
            && InPhase(r.procs[w.pid], s.procs[w.pid].issued, Begun)
  {
    assert WatchJustified(s, c);
    NextWakes(s, Cascade(c, metered));
  }

  /** What has been watched is watched by one watch or has caused one call, not both. */
  ghost predicate CascadeOnce(s: System) {
    && (forall c :: c in s.watches ==> c.waker in s.watched)
    && (forall c, d :: c in s.watches && d in s.watches && c.waker == d.waker ==> c == d)
    && (forall m :: 0 <= m < |s.wakes| && s.wakes[m].cause.Some? ==> s.wakes[m].cause.value.waker in s.watched)
    && (forall m, c :: 0 <= m < |s.wakes| && s.wakes[m].cause.Some? && c in s.watches ==>
          c.waker != s.wakes[m].cause.value.waker)
    && (forall m, n :: 0 <= m < n < |s.wakes| && s.wakes[m].cause.Some? && s.wakes[n].cause.Some? ==>
          s.wakes[m].cause.value.waker != s.wakes[n].cause.value.waker)
  }

  lemma EffectOnce(s: System, e: Event, r: System)
    requires CascadeOnce(s) && Enabled(s, e) && WakesEffect(s, e, r)
    ensures CascadeOnce(r)
  {
    assert forall m :: 0 <= m < |s.wakes| ==> r.wakes[m] == s.wakes[m];
  }

  lemma {:induction false} RunOnce(s: System, es: seq<Event>)
    requires CascadeOnce(s) && EnabledRun(s, es)
    ensures CascadeOnce(After(s, es))
    decreases |es|
  {
    if es != [] {
      NextWakes(s, es[0]);
      EffectOnce(s, es[0], Next(s, es[0]));
      RunOnce(Next(s, es[0]), es[1..]);
    }
  }

  /** Over every interleaving: each call that resumes a child wakes the child's parent at most once, and as
    * long as it is still watching, it has not yet. */
  lemma OneCascadePerCall(s: System, es: seq<Event>)
    requires Initial(s) && EnabledRun(s, es)
    ensures var r := After(s, es);
            && (forall m, n :: 0 <= m < n < |r.wakes| && r.wakes[m].cause.Some? && r.wakes[n].cause.Some? ==>
                  r.wakes[m].cause.value.waker != r.wakes[n].cause.value.waker)
            && (forall m, c :: 0 <= m < |r.wakes| && r.wakes[m].cause.Some? && c in r.watches ==>
                  c.waker != r.wakes[m].cause.value.waker)
  {
    RunOnce(s, es);
  }
}
