/** What WaitTracker.startExecution makes of a resume that fails, and what must have happened before a resume
  * can fail quietly. */
module SwallowedResumes {
  import opened ProcessModel
  import opened Lifecycle
  import Cap = ProcessCapacity
  import Q = ConcurrencyQueue
  import Rec = ProcessRecords

  /** How `add` ends its wait for the database. */
  datatype Answer = Accepted | AlreadyResuming | DatabaseError

  ghost function AnswerOf(s: System, e: Event): Answer
    requires Enabled(s, e) && (e.Claim? || e.ClaimFails?)
  {
    if e.ClaimFails? then DatabaseError
    else
      var c := s.procs[e.pid].calls[e.ticket];
      if c.resume && !CanClaim(s, c.id) then AlreadyResuming else Accepted
  }

  /** What WaitTracker.startExecution does with it. */
  datatype Outcome = GoesOn | Swallows | Rethrows

  function OutcomeOf(answer: Answer): Outcome {
    match answer
    case Accepted => GoesOn
    case AlreadyResuming => Swallows
    case DatabaseError => Rethrows
  }

  /** The error of a failed resume is swallowed exactly when the row is not waiting, not when the database
    * fails; and a failed resume, swallowed or not, changes no row, no live run, no record map and no watch. */
  lemma SwallowedIff(s: System, e: Event)
    requires Enabled(s, e) && (e.Claim? || e.ClaimFails?) && s.procs[e.pid].calls[e.ticket].resume
    ensures var id, r := s.procs[e.pid].calls[e.ticket].id, Next(s, e);
            && (OutcomeOf(AnswerOf(s, e)) == Swallows <==> e.Claim? && !(id in s.rows && s.rows[id].status == Waiting))
            && (InPhase(r.procs[e.pid], e.ticket, Refused) <==> OutcomeOf(AnswerOf(s, e)) != GoesOn)
            && (OutcomeOf(AnswerOf(s, e)) != GoesOn ==>
                  && r.rows == s.rows && r.live == s.live && r.watches == s.watches && |r.procs| == |s.procs|
                  && forall i :: 0 <= i < |s.procs| ==> Rec.SameShared(s.procs[i], r.procs[i]))
  {
    NextRows(s, e);
    ProcessEventWakes(s, e);
  }

  // ---------------------------------------------------------------- before a swallowed resume

  /** The event takes the row of `id` out of 'waiting': a resume that wins, or somebody from outside. */
  ghost predicate TakesOut(s: System, e: Event, id: ExecutionId)
    requires Enabled(s, e)
  {
    || (e.Claim? && s.procs[e.pid].calls[e.ticket].resume && s.procs[e.pid].calls[e.ticket].id == id && CanClaim(s, id))
    || (e.External? && e.id == id)
  }

  /** A call that creates an execution is its live run while it is under way. */
  ghost predicate FirstCallsLive(s: System) {
    forall pid: nat, t :: pid < |s.procs| && t in s.procs[pid].calls && !s.procs[pid].calls[t].resume ==>
      Run(pid, t) in s.live && s.live[Run(pid, t)] == s.procs[pid].calls[t].id
  }

  /** The calls that are left are calls that were there. */
  ghost predicate Kept(a: map<Ticket, Call>, b: map<Ticket, Call>) {
    forall t :: t in b ==> t in a && b[t].id == a[t].id && b[t].resume == a[t].resume
  }

  ghost predicate CallsEffect(p: Process, op: Op, r: Process) {
    && (op.Begin? ==> r.calls == p.calls[p.issued := Call(op.id, op.resume, op.metered, Begun)])
    && (!op.Begin? ==> Kept(p.calls, r.calls))
    && (op.Abandon? ==> op.ticket !in r.calls)
  }

  lemma ReleasedKeeps(p: Process, u: Ticket, metered: bool)
    ensures Kept(p.calls, Released(p, u, metered).calls)
  {
  }

  lemma QuietKeeps(p: Process, op: Op)
    requires Possible(p, op) && !Cap.Settles(op) && !op.Abandon? && !op.Drop?
    ensures CallsEffect(p, op, Step(p, op))
  {
  }

  lemma DropKeeps(p: Process, id: ExecutionId)
    ensures Kept(p.calls, Step(p, Drop(id)).calls)
  {
  }

  lemma StepCalls(p: Process, op: Op)
    requires Possible(p, op)
    ensures CallsEffect(p, op, Step(p, op))
  {
    if Cap.Settles(op) {
      if Recorded(p, op.id) {
        var k, how := p.active[op.id], if op.Stop? then Rejected else Resolved(op.run);
        Cap.SettledForm(p, k, how);
        ReleasedKeeps(Cap.Closed(p, k, how), p.executions[k].ticket, p.executions[k].metered);
      }
    } else if op.Abandon? {
      ReleasedKeeps(Leaving(p, op.ticket), op.ticket, p.calls[op.ticket].metered);
    } else if op.Drop? {
      DropKeeps(p, op.id);
    } else {
      QuietKeeps(p, op);
    }
  }

  /** The event ends a live run, or gives its name away. */
  ghost predicate Touches(s: System, e: Event, run: Run)
    requires Enabled(s, e)
  {
    match e
    case Create(pid, _, _) => run == Run(pid, s.procs[pid].issued)
    case Claim(pid, t) => s.procs[pid].calls[t].resume && run == Run(pid, t)
    case Park(other) => run == other
    case Finish(other, _) => run == other
    case Local(pid, op) => op.Abandon? && run == Run(pid, op.ticket)
    case _ => false
  }

  lemma LiveStays(s: System, e: Event, r: System, run: Run)
    requires Enabled(s, e) && RowsEffect(s, e, r) && run in s.live && !Touches(s, e, run)
    ensures run in r.live && r.live[run] == s.live[run]
  {
  }

  lemma NextFirstCalls(s: System, e: Event)
    requires Safe(s) && FirstCallsLive(s) && Enabled(s, e)
    ensures FirstCallsLive(Next(s, e))
  {
    var r := Next(s, e);
    NextMoves(s, e);
    NextRows(s, e);
    forall pid: nat, t | pid < |r.procs| && t in r.procs[pid].calls && !r.procs[pid].calls[t].resume
      ensures Run(pid, t) in r.live && r.live[Run(pid, t)] == r.procs[pid].calls[t].id
    {
      var m := MoveOf(s, e);
      if m.Some? && m.value.pid == pid {
        StepCalls(s.procs[pid], m.value.op);
        FirstCallMoves(s, e, r, pid, t);
      } else {
        FirstCallStays(s, e, r, pid, t);
      }
    }
  }

  lemma FirstCallStays(s: System, e: Event, r: System, pid: nat, t: Ticket)
    requires Safe(s) && FirstCallsLive(s) && Enabled(s, e) && RowsEffect(s, e, r)
    requires pid < |s.procs| && t in s.procs[pid].calls && !s.procs[pid].calls[t].resume
    requires MoveOf(s, e).Some? ==> MoveOf(s, e).value.pid != pid
    ensures Run(pid, t) in r.live && r.live[Run(pid, t)] == s.procs[pid].calls[t].id
  {
    assert Accounted(s.procs[pid]);
    LiveStays(s, e, r, Run(pid, t));
  }

  lemma FirstCallMoves(s: System, e: Event, r: System, pid: nat, t: Ticket)
    requires Safe(s) && FirstCallsLive(s) && Enabled(s, e) && RowsEffect(s, e, r)
    requires MoveOf(s, e).Some? && MoveOf(s, e).value.pid == pid < |s.procs| && |r.procs| == |s.procs|
    requires CallsEffect(s.procs[pid], MoveOf(s, e).value.op, r.procs[pid])
    requires t in r.procs[pid].calls && !r.procs[pid].calls[t].resume
    ensures Run(pid, t) in r.live && r.live[Run(pid, t)] == r.procs[pid].calls[t].id
  {
    assert Accounted(s.procs[pid]);
    if !(e.Create? && t == s.procs[pid].issued) {
      assert t in s.procs[pid].calls && !Touches(s, e, Run(pid, t));
      LiveStays(s, e, r, Run(pid, t));
    }
  }

  lemma EffectTakesOut(s: System, e: Event, r: System, id: ExecutionId)
    requires Exclusive(s) && FirstCallsLive(s) && Enabled(s, e) && RowsEffect(s, e, r)
    requires CanClaim(s, id) && !CanClaim(r, id)
    ensures TakesOut(s, e, id)
  {
  }

  lemma StepTakesOut(s: System, e: Event, id: ExecutionId)
    requires Safe(s) && FirstCallsLive(s) && Enabled(s, e) && CanClaim(s, id) && !CanClaim(Next(s, e), id)
    ensures TakesOut(s, e, id)
  {
    NextRows(s, e);
    EffectTakesOut(s, e, Next(s, e), id);
  }

  /** The call has been told how its resume ended, or was cancelled before. */
  ghost predicate Past(p: Process, t: Ticket) {
    t < p.issued && (t in p.calls ==> p.calls[t].phase in {Admitted, Refused, Dropped})
  }

  lemma ReleasedPast(p: Process, u: Ticket, metered: bool, t: Ticket)
    requires Past(p, t)
    requires p.enabled && p.queue.waiting != [] ==> InPhase(p, p.queue.waiting[0].ticket, Throttled)
    ensures Past(Released(p, u, metered), t)
  {
  }

  lemma StepPast(p: Process, op: Op, t: Ticket)
    requires Accounted(p) && Possible(p, op) && Past(p, t)
    ensures Past(Step(p, op), t)
  {
    if Cap.Settles(op) {
      if Recorded(p, op.id) {
        var k, how := p.active[op.id], if op.Stop? then Rejected else Resolved(op.run);
        Cap.SettledForm(p, k, how);
        ReleasedPast(Cap.Closed(p, k, how), p.executions[k].ticket, p.executions[k].metered, t);
      }
    } else if op.Abandon? {
      ReleasedPast(Leaving(p, op.ticket), op.ticket, p.calls[op.ticket].metered, t);
    } else if op.Drop? {
      DropPast(p, op.id, t);
    } else {
      QuietPast(p, op, t);
    }
  }

  lemma QuietPast(p: Process, op: Op, t: Ticket)
    requires Possible(p, op) && Past(p, t) && !Cap.Settles(op) && !op.Abandon? && !op.Drop?
    ensures Past(Step(p, op), t)
  {
  }

  lemma HeadPast(p: Process, t: Ticket)
    requires Past(p, t) && (p.queue.waiting != [] ==> InPhase(p, p.queue.waiting[0].ticket, Throttled))
    ensures Past(HeadResumed(p), t)
  {
  }

  lemma CutPast(p: Process, i: nat, t: Ticket)
    requires SlotsAccounted(p) && p.enabled && Past(p, t) && i < |p.queue.waiting|
    requires p.queue.waiting[i].ticket in p.calls
    ensures var q := WithoutWaiter(p, i);
            Past(q, t) && (q.queue.waiting != [] ==> InPhase(q, q.queue.waiting[0].ticket, Throttled))
  {
    var w := p.queue.waiting;
    var rest := w[..i] + w[i + 1..];
    if rest != [] {
      assert rest[0] == w[if i == 0 then 1 else 0];
    }
  }

  lemma DropPast(p: Process, id: ExecutionId, t: Ticket)
    requires Accounted(p) && Past(p, t)
    ensures Past(Step(p, Drop(id)), t)
  {
    var i := Q.FirstIndex(p.queue.waiting, id);
    if p.enabled && i < |p.queue.waiting| {
      CutPast(p, i, t);
      HeadPast(WithoutWaiter(p, i), t);
    }
  }

  ghost predicate CallPast(s: System, pid: nat, t: Ticket) {
    pid < |s.procs| && Past(s.procs[pid], t)
  }

  lemma {:induction false} RunPast(s: System, es: seq<Event>, pid: nat, t: Ticket)
    requires Safe(s) && EnabledRun(s, es) && CallPast(s, pid, t)
    ensures CallPast(After(s, es), pid, t)
    decreases |es|
  {
    if es != [] {
      NextSafe(s, es[0]);
      NextMoves(s, es[0]);
      if MoveOf(s, es[0]).Some? && MoveOf(s, es[0]).value.pid == pid {
        StepPast(s.procs[pid], MoveOf(s, es[0]).value.op, t);
      }
      RunPast(Next(s, es[0]), es[1..], pid, t);
    }
  }

  lemma ClaimPast(s: System, e: Event)
    requires Safe(s) && Enabled(s, e) && e.Claim?
    ensures CallPast(Next(s, e), e.pid, e.ticket)
  {
    NextMoves(s, e);
    AdmitPast(s.procs[e.pid], MoveOf(s, e).value.op);
  }

  lemma AdmitPast(p: Process, op: Op)
    requires Accounted(p) && Possible(p, op) && op.Admit?
    ensures Past(Step(p, op), op.ticket)
  {
  }

  /** The first event that takes a waiting row out of 'waiting'. */
  lemma {:induction false} Exit(s: System, es: seq<Event>, id: ExecutionId) returns (k: nat)
    requires Safe(s) && FirstCallsLive(s) && EnabledRun(s, es) && CanClaim(s, id) && !CanClaim(After(s, es), id)
    ensures k < |es| && EnabledRun(s, es[..k]) && Enabled(After(s, es[..k]), es[k])
    ensures TakesOut(After(s, es[..k]), es[k], id)
    ensures es[k].Claim? ==> CallPast(After(s, es), es[k].pid, es[k].ticket)
    decreases |es|
  {
    var r := Next(s, es[0]);
    NextSafe(s, es[0]);
    if CanClaim(r, id) {
      NextFirstCalls(s, es[0]);
      k := Exit(r, es[1..], id);
      k := k + 1;
      assert es[..k][0] == es[0] && es[..k][1..] == es[1..][..k - 1];
    } else {
      StepTakesOut(s, es[0], id);
      k := 0;
      if es[0].Claim? {
        ClaimPast(s, es[0]);
        RunPast(r, es[1..], es[0].pid, es[0].ticket);
      }
    }
  }

  lemma {:induction false} RunFirstCalls(s: System, es: seq<Event>)
    requires Safe(s) && FirstCallsLive(s) && EnabledRun(s, es)
    ensures FirstCallsLive(After(s, es))
    decreases |es|
  {
    if es != [] {
      NextSafe(s, es[0]);
      NextFirstCalls(s, es[0]);
      RunFirstCalls(Next(s, es[0]), es[1..]);
    }
  }

  /** Over every interleaving: if a row was waiting at some time and a resume of it is swallowed later, then in
    * between another call's resume has won, or the row was taken out of 'waiting' from outside, as by a
    * cancellation. So no resume is swallowed that could have gone on. */
  lemma SwallowedAfterAnother(s: System, before: seq<Event>, es: seq<Event>, e: Event) returns (k: nat)
    requires Initial(s) && EnabledRun(s, before) && EnabledRun(After(s, before), es)
    requires e.Claim? && Enabled(After(After(s, before), es), e)
    requires var q, r := After(s, before), After(After(s, before), es);
             var c := r.procs[e.pid].calls[e.ticket];
             c.resume && CanClaim(q, c.id) && OutcomeOf(AnswerOf(r, e)) == Swallows
    ensures var q, id := After(s, before), After(After(s, before), es).procs[e.pid].calls[e.ticket].id;
            && k < |es| && EnabledRun(q, es[..k]) && Enabled(After(q, es[..k]), es[k])
            && TakesOut(After(q, es[..k]), es[k], id)
            && (es[k].Claim? ==> Run(es[k].pid, es[k].ticket) != Run(e.pid, e.ticket))
  {
    var q := After(s, before);
    InitialSafe(s);
    InitialFirstCalls(s);
    RunSafe(s, before);
    RunFirstCalls(s, before);
    k := Exit(q, es, After(q, es).procs[e.pid].calls[e.ticket].id);
  }

  lemma InitialFirstCalls(s: System)
    requires Initial(s)
    ensures FirstCallsLive(s)
  {
    forall pid: nat | pid < |s.procs| ensures s.procs[pid].calls == map[] {
      var limit, enabled :| s.procs[pid] == Fresh(limit, enabled);
    }
  }
}
