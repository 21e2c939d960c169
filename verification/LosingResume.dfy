/** A resume that loses the compare-and-set, interleaved with everything else a process does: exactly when
  * the process is, in every state, what the same steps make of it without that resume. */
module LosingResume {
  import opened Wrappers
  import opened ProcessModel
  import opened ProcessCapacity
  import opened ReservationDesk
  import Q = ConcurrencyQueue
  import Rec = ProcessRecords

  // ---------------------------------------------------------------- one process without one call

  /** A process apart from the history of its reservations. */
  ghost function Core(p: Process): Process {
    p.(failed := {}, released := multiset{})
  }

  ghost function DeskWithout(p: Process, t: Ticket, c: Call): Desk {
    if p.enabled && c.metered then UndoneAt(DeskOf(p), t, c) else Reset(DeskOf(p), t, c)
  }

  ghost function With(p: Process, d: Desk): Process {
    p.(calls := d.calls, queue := d.queue)
  }

  /** The process as it would be had call `t`, begun as `c`, never gone on. */
  ghost function Undone(p: Process, t: Ticket, c: Call): Process {
    With(Core(p), DeskWithout(p, t, c))
  }

  lemma UndoneWith(p: Process, d: Desk, t: Ticket, c: Call)
    ensures Undone(With(p, d), t, c) ==
            With(Core(p), if p.enabled && c.metered then UndoneAt(d, t, c) else Reset(d, t, c))
    ensures DeskOf(Undone(p, t, c)) == DeskWithout(p, t, c)
  {
  }

  lemma SameWith(p: Process, d: Desk, e: Desk)
    ensures With(p, d) == With(p, e) <==> d == e
    ensures DeskOf(With(p, d)) == d && Core(With(p, d)) == With(Core(p), d) && With(With(p, d), e) == With(p, e)
  {
  }

  ghost predicate Fit(p: Process, t: Ticket, c: Call) {
    && (t in p.calls ==>
          p.calls[t] == c.(phase := p.calls[t].phase) && p.calls[t].phase in {Begun, Throttled, Reserved, Refused})
    && (p.enabled ==>
          Lined(DeskOf(p), t) && (!c.metered ==> !InPhase(p, t, Throttled) && t !in p.queue.granted))
  }

  predicate Concerns(op: Op, t: Ticket) {
    (op.Throttle? || op.Admit? || op.Abandon? || op.Register?) && op.ticket == t
  }

  /** The operation cancels call `t` itself while it waits; then `t` never throws. */
  ghost predicate DropsCall(p: Process, op: Op, t: Ticket) {
    op.Drop? && p.enabled && DropsFrom(DeskOf(p), op.id, t)
  }

  /** The step comes to something else with the metered attempt than without it: a metered call asks for a
    * slot while the attempt holds one beyond the limit; the head of the queue is cancelled while the attempt
    * holds a slot; or the control is switched off while the attempt holds a slot or waits for one. */
  ghost predicate Slips(p: Process, op: Op, t: Ticket, c: Call)
    requires Possible(p, op)
  {
    && p.enabled && c.metered
    && var d := DeskOf(p);
       match op
       case Throttle(u) => p.calls[u].metered && HoldsBeyond(d, t)
       case Drop(id) => Holds(d, t) && d.queue.waiting != [] && Q.FirstIndex(d.queue.waiting, id) == 0
       case Disable => Holds(d, t) || IsIn(d, t, Throttled)
       case _ => false
  }

  lemma OwnThrottle(p: Process, t: Ticket, c: Call)
    requires Fit(p, t, c) && NoIdleWait(p) && c.phase == Begun && InPhase(p, t, Begun)
    ensures var r := Step(p, Throttle(t)); Undone(r, t, c) == Undone(p, t, c) && Fit(r, t, c)
  {
    var d, r := DeskOf(p), Step(p, Throttle(t));
    if p.enabled && c.metered {
      OwnAsk(d, t, c);
      assert DeskOf(r) == AskedAt(d, t);
    } else {
      assert r.calls[t := c] == p.calls[t := c];
    }
  }

  lemma OwnLoss(p: Process, t: Ticket, c: Call)
    requires Fit(p, t, c) && InPhase(p, t, Reserved)
    ensures var r := Step(p, Admit(t, false)); Undone(r, t, c) == Undone(p, t, c) && Fit(r, t, c)
  {
    assert Step(p, Admit(t, false)).calls[t := c] == p.calls[t := c];
  }

  lemma OwnAbandon(p: Process, t: Ticket, c: Call)
    requires Fit(p, t, c) && InPhase(p, t, Refused)
    ensures var r := Step(p, Abandon(t)); Undone(r, t, c) == Undone(p, t, c) && Fit(r, t, c)
  {
    var d, r := DeskOf(p), Step(p, Abandon(t));
    if p.enabled && c.metered {
      OwnGiveBack(d, t, c);
      assert DeskOf(r) == GivenBackAt(d.(calls := d.calls - {t}), t);
    } else {
      assert r.calls[t := c] == p.calls[t := c];
    }
  }

  /** No step of the losing attempt changes what the process would be without it. */
  lemma OwnStep(p: Process, op: Op, t: Ticket, c: Call)
    requires Fit(p, t, c) && NoIdleWait(p) && c.phase == Begun && Possible(p, op) && Rec.IsLosing(op, t)
    ensures Undone(Step(p, op), t, c) == Undone(p, t, c) && Fit(Step(p, op), t, c)
  {
    match op
    case Throttle(_) => OwnThrottle(p, t, c);
    case Admit(_, _) => OwnLoss(p, t, c);
    case Abandon(_) => OwnAbandon(p, t, c);
  }

  lemma ReleasedForm(p: Process, u: Ticket, metered: bool)
    ensures Released(p, u, metered) ==
            With(p.(released := p.released + multiset{u}),
                 if p.enabled && metered then GivenBackAt(DeskOf(p), u) else DeskOf(p))
  {
  }

  lemma OtherReleases(p: Process, u: Ticket, metered: bool, t: Ticket, c: Call)
    requires Fit(p, t, c) && u != t && !InPhase(p, u, Throttled)
    ensures Core(Released(Undone(p, t, c), u, metered)) == Undone(Released(p, u, metered), t, c)
    ensures Fit(Released(p, u, metered), t, c)
  {
    var d, e := DeskOf(p), DeskWithout(p, t, c);
    ReleasedForm(p, u, metered);
    ReleasedForm(Undone(p, t, c), u, metered);
    if p.enabled && metered {
      UndoneWith(p.(released := p.released + multiset{u}), GivenBackAt(d, u), t, c);
      DeskReleases(d, u, t, c);
      assert e == if c.metered then UndoneAt(d, t, c) else Reset(d, t, c);
    }
  }

  lemma DeskReleases(d: Desk, u: Ticket, t: Ticket, c: Call)
    requires FitAt(d, t, c) && u != t && !IsIn(d, u, Throttled)
    ensures UndoneAt(GivenBackAt(d, u), t, c) == GivenBackAt(UndoneAt(d, t, c), u)
    ensures !c.metered ==> Reset(GivenBackAt(d, u), t, c) == GivenBackAt(Reset(d, t, c), u)
    ensures FitAt(GivenBackAt(d, u), t, c)
  {
    assert !Waits(d.queue.waiting, u);
    HeadFits(Freed(d, u), t, c);
    OtherGiveBack(d, u, t, c);
    if !c.metered {
      ResetHead(Freed(d, u), t, c);
    }
  }

  /** What Fit asks of calls and queue. */
  ghost predicate FitAt(d: Desk, t: Ticket, c: Call) {
    && Lined(d, t)
    && (t in d.calls ==>
          d.calls[t] == c.(phase := d.calls[t].phase) && d.calls[t].phase in {Begun, Throttled, Reserved, Refused})
    && (!c.metered ==> !IsIn(d, t, Throttled) && t !in d.queue.granted)
  }

  lemma HeadFits(d: Desk, t: Ticket, c: Call)
    requires FitAt(d, t, c)
    ensures FitAt(HeadAt(d), t, c)
  {
    HeadLined(d, t);
  }

  /** A step that only changes one other call. */
  lemma OtherCall(p: Process, u: Ticket, x: Option<Call>, t: Ticket, c: Call)
    requires Fit(p, t, c) && u != t && !InPhase(p, u, Throttled) && (x.Some? ==> x.value.phase != Throttled)
    ensures var r := With(p, Changed(DeskOf(p), u, x));
            Fit(r, t, c) && DeskWithout(r, t, c) == Changed(DeskWithout(p, t, c), u, x)
  {
    var d := DeskOf(p);
    if p.enabled {
      ChangeLined(d, u, x, t);
    }
    if p.enabled && c.metered {
      OtherChange(d, u, x, t, c);
    } else {
      ChangeCommutes(d.calls, u, x, t, c, []);
    }
  }

  /** Undoing `t` leaves the calls alone that do not wait. */
  lemma SameCall(p: Process, u: Ticket, t: Ticket, c: Call)
    requires Fit(p, t, c) && u != t && !InPhase(p, u, Throttled)
    ensures u in Undone(p, t, c).calls <==> u in p.calls
    ensures u in p.calls ==> Undone(p, t, c).calls[u] == p.calls[u]
  {
  }

  lemma OtherThrottle(p: Process, u: Ticket, t: Ticket, c: Call)
    requires Fit(p, t, c) && NoIdleWait(p) && u != t && InPhase(p, u, Begun)
    ensures InPhase(Undone(p, t, c), u, Begun)
    ensures Core(Step(Undone(p, t, c), Throttle(u))) == Undone(Step(p, Throttle(u)), t, c)
            <==> !Slips(p, Throttle(u), t, c)
    ensures Fit(Step(p, Throttle(u)), t, c)
  {
    var d, e := DeskOf(p), Undone(p, t, c);
    SameCall(p, u, t, c);
    ThrottleForm(p, u);
    ThrottleForm(e, u);
    if p.enabled && p.calls[u].metered {
      AskLined(d, u, t);
      if c.metered {
        OtherAskIff(d, u, t, c);
      } else {
        ChangeCommutes(d.calls, u, Some(AskedAt(d, u).calls[u]), t, c, []);
      }
    } else {
      OtherCall(p, u, Some(p.calls[u].(phase := Reserved)), t, c);
    }
  }

  lemma ThrottleForm(p: Process, u: Ticket)
    requires InPhase(p, u, Begun)
    ensures Step(p, Throttle(u)) ==
            With(p, if p.enabled && p.calls[u].metered then AskedAt(DeskOf(p), u)
                    else Changed(DeskOf(p), u, Some(p.calls[u].(phase := Reserved))))
  {
  }

  lemma OtherBegin(p: Process, op: Op, t: Ticket, c: Call)
    requires Accounted(p) && Fit(p, t, c) && t < p.issued && op.Begin?
    ensures Core(Step(Undone(p, t, c), op)) == Undone(Step(p, op), t, c) && Fit(Step(p, op), t, c)
  {
    var x := Some(Call(op.id, op.resume, op.metered, Begun));
    OtherCall(p, p.issued, x, t, c);
    assert DeskOf(Step(p, op)) == Changed(DeskOf(p), p.issued, x);
  }

  lemma OtherAdmit(p: Process, u: Ticket, won: bool, t: Ticket, c: Call)
    requires Fit(p, t, c) && u != t && InPhase(p, u, Reserved)
    ensures InPhase(Undone(p, t, c), u, Reserved)
    ensures Core(Step(Undone(p, t, c), Admit(u, won))) == Undone(Step(p, Admit(u, won)), t, c)
    ensures Fit(Step(p, Admit(u, won)), t, c)
  {
    var x := Some(p.calls[u].(phase := if won then Admitted else Refused));
    SameCall(p, u, t, c);
    OtherCall(p, u, x, t, c);
    assert DeskOf(Step(p, Admit(u, won))) == Changed(DeskOf(p), u, x);
  }

  lemma OtherRegister(p: Process, u: Ticket, now: int, t: Ticket, c: Call)
    requires Fit(p, t, c) && u != t && InPhase(p, u, Admitted)
    ensures InPhase(Undone(p, t, c), u, Admitted)
    ensures Core(Step(Undone(p, t, c), Register(u, now))) == Undone(Step(p, Register(u, now)), t, c)
    ensures Fit(Step(p, Register(u, now)), t, c)
  {
    SameCall(p, u, t, c);
    OtherCall(p, u, None, t, c);
    assert DeskOf(Step(p, Register(u, now))) == Changed(DeskOf(p), u, None);
    assert NewRecord(Undone(p, t, c), u, now) == NewRecord(p, u, now);
  }

  lemma OtherLeaves(p: Process, u: Ticket, t: Ticket, c: Call)
    requires Fit(p, t, c) && u != t && !InPhase(p, u, Throttled)
    ensures Core(Leaving(Undone(p, t, c), u)) == Undone(Leaving(p, u), t, c) && Fit(Leaving(p, u), t, c)
  {
    OtherCall(p, u, None, t, c);
    assert DeskOf(Leaving(p, u)) == Changed(DeskOf(p), u, None);
  }

  lemma OtherAbandon(p: Process, u: Ticket, t: Ticket, c: Call)
    requires Fit(p, t, c) && u != t && InPhase(p, u, Refused)
    ensures InPhase(Undone(p, t, c), u, Refused)
    ensures Core(Step(Undone(p, t, c), Abandon(u))) == Undone(Step(p, Abandon(u)), t, c)
    ensures Fit(Step(p, Abandon(u)), t, c)
  {
    var metered := p.calls[u].metered;
    SameCall(p, u, t, c);
    OtherLeaves(p, u, t, c);
    assert !InPhase(Leaving(p, u), u, Throttled);
    OtherReleases(Leaving(p, u), u, metered, t, c);
    SameRelease(Leaving(Undone(p, t, c), u), Undone(Leaving(p, u), t, c), u, metered);
    AbandonForm(p, u);
    AbandonForm(Undone(p, t, c), u);
  }

  lemma AbandonForm(p: Process, u: Ticket)
    requires InPhase(p, u, Refused)
    ensures Step(p, Abandon(u)) == Released(Leaving(p, u), u, p.calls[u].metered)
  {
  }

  /** Releasing does not depend on the history. */
  lemma SameRelease(p: Process, q: Process, u: Ticket, metered: bool)
    requires Core(p) == Core(q)
    ensures Core(Released(p, u, metered)) == Core(Released(q, u, metered))
  {
  }

  lemma OtherForgets(p: Process, id: ExecutionId, t: Ticket, c: Call)
    requires Fit(p, t, c)
    ensures Undone(Forgotten(p, id), t, c) == Forgotten(Undone(p, t, c), id) && Fit(Forgotten(p, id), t, c)
  {
    assert DeskOf(Forgotten(p, id)) == DeskOf(p);
  }

  lemma OtherCloses(p: Process, k: nat, how: Settlement, t: Ticket, c: Call)
    requires Fit(p, t, c) && k < |p.executions|
    ensures Undone(Closed(p, k, how), t, c) == Closed(Undone(p, t, c), k, how) && Fit(Closed(p, k, how), t, c)
  {
    assert DeskOf(Closed(p, k, how)) == DeskOf(p);
  }

  lemma OtherSettles(p: Process, k: nat, how: Settlement, t: Ticket, c: Call)
    requires WellNumbered(p) && Fit(p, t, c) && k < |p.executions| && p.executions[k].ticket != t
    ensures Core(Settled(Undone(p, t, c), k, how)) == Undone(Settled(p, k, how), t, c)
    ensures Fit(Settled(p, k, how), t, c)
  {
    var e, q := p.executions[k], Closed(p, k, how);
    SettledForm(p, k, how);
    SettledForm(Undone(p, t, c), k, how);
    OtherCloses(p, k, how, t, c);
    OtherReleases(q, e.ticket, e.metered, t, c);
    OtherForgets(Released(q, e.ticket, e.metered), e.id, t, c);
  }

  /** Operations that leave calls and queue alone. */
  lemma OtherRecords(p: Process, op: Op, t: Ticket, c: Call)
    requires Fit(p, t, c) && (IsUpdate(op) || op.SetResponseMode?)
    ensures Core(Step(Undone(p, t, c), op)) == Undone(Step(p, op), t, c) && Fit(Step(p, op), t, c)
  {
    var r := Step(p, op);
    RecordsForm(p, op);
    RecordsForm(Undone(p, t, c), op);
    assert DeskOf(r) == DeskOf(p);
  }

  lemma RecordsForm(p: Process, op: Op)
    requires IsUpdate(op) || op.SetResponseMode?
    ensures var r := Step(p, op);
            && r == p.(executions := r.executions, responseModes := r.responseModes)
            && r.executions == UpdatedRecords(p, op)
            && r.responseModes == if op.SetResponseMode? then p.responseModes[op.id := op.mode] else p.responseModes
  {
  }

  ghost function UpdatedRecords(p: Process, op: Op): seq<Execution> {
    if !IsUpdate(op) || !Recorded(p, op.id) then p.executions
    else
      var e := Current(p, op.id);
      p.executions[p.active[op.id] := if op.SetStatus? then e.(status := op.status)
                                      else if op.AttachExecution? then e.(attached := true)
                                      else e.(responsePromise := Some(op.promise))]
  }

  lemma OtherSettling(p: Process, op: Op, t: Ticket, c: Call)
    requires WellNumbered(p) && Fit(p, t, c) && Settles(op)
    requires forall k :: 0 <= k < |p.executions| ==> p.executions[k].ticket != t
    ensures Core(Step(Undone(p, t, c), op)) == Undone(Step(p, op), t, c) && Fit(Step(p, op), t, c)
  {
    SettlingForm(p, op);
    SettlingForm(Undone(p, t, c), op);
    if SettlesOne(p, op) {
      OtherSettles(p, p.active[op.id], if op.Stop? then Rejected else Resolved(op.run), t, c);
    } else if ForgetsOne(p, op) {
      OtherForgets(p, op.id, t, c);
    }
  }

  ghost predicate ForgetsOne(p: Process, op: Op) {
    op.Stop? && Recorded(p, op.id) && Current(p, op.id).status == Waiting
  }

  ghost predicate SettlesOne(p: Process, op: Op) {
    Settles(op) && Recorded(p, op.id) && Current(p, op.id).settlement.Pending? && !ForgetsOne(p, op)
  }

  /** The three things finalizing or stopping can do. */
  lemma SettlingForm(p: Process, op: Op)
    requires Settles(op)
    ensures Step(p, op) ==
            if SettlesOne(p, op) then Settled(p, p.active[op.id], if op.Stop? then Rejected else Resolved(op.run))
            else if ForgetsOne(p, op) then Forgotten(p, op.id)
            else p
  {
  }

  lemma DropForm(p: Process, id: ExecutionId)
    ensures Step(p, Drop(id)) == if p.enabled then With(p, DroppedAt(DeskOf(p), id)) else p
  {
  }

  lemma DropBothWays(p: Process, id: ExecutionId, t: Ticket, c: Call)
    requires p.enabled
    ensures Core(Step(Undone(p, t, c), Drop(id))) == With(Core(p), DroppedAt(DeskWithout(p, t, c), id))
    ensures var r := DroppedAt(DeskOf(p), id);
            && Undone(Step(p, Drop(id)), t, c) == With(Core(p), if c.metered then UndoneAt(r, t, c) else Reset(r, t, c))
            && DeskOf(Step(p, Drop(id))) == r && Step(p, Drop(id)).enabled
  {
    DropForm(p, id);
    DropForm(Undone(p, t, c), id);
    UndoneWith(p, DroppedAt(DeskOf(p), id), t, c);
  }

  lemma OtherDrop(p: Process, id: ExecutionId, t: Ticket, c: Call)
    requires Fit(p, t, c) && !DropsCall(p, Drop(id), t)
    ensures Core(Step(Undone(p, t, c), Drop(id))) == Undone(Step(p, Drop(id)), t, c) <==> !Slips(p, Drop(id), t, c)
    ensures Fit(Step(p, Drop(id)), t, c)
  {
    if p.enabled {
      DropBothWays(p, id, t, c);
      DropFits(DeskOf(p), id, t, c);
      if c.metered {
        MeteredDrop(p, id, t, c);
      } else {
        ResetDrop(DeskOf(p), id, t, c);
      }
    } else {
      DropForm(p, id);
      DropForm(Undone(p, t, c), id);
    }
  }

  lemma MeteredDrop(p: Process, id: ExecutionId, t: Ticket, c: Call)
    requires p.enabled && c.metered && Lined(DeskOf(p), t) && !DropsFrom(DeskOf(p), id, t)
    ensures With(Core(p), DroppedAt(DeskWithout(p, t, c), id)) ==
            With(Core(p), UndoneAt(DroppedAt(DeskOf(p), id), t, c))
            <==> !Slips(p, Drop(id), t, c)
  {
    OtherDropIff(DeskOf(p), id, t, c);
    SameWith(Core(p), DroppedAt(DeskWithout(p, t, c), id), UndoneAt(DroppedAt(DeskOf(p), id), t, c));
  }

  lemma DropFits(d: Desk, id: ExecutionId, t: Ticket, c: Call)
    requires FitAt(d, t, c) && !DropsFrom(d, id, t)
    ensures FitAt(DroppedAt(d, id), t, c)
  {
    var i := Q.FirstIndex(d.queue.waiting, id);
    if i < |d.queue.waiting| {
      CutLined(d, i, t);
      HeadFits(CutAt(d, i), t, c);
    }
  }

  lemma OtherDisable(p: Process, t: Ticket, c: Call)
    requires Fit(p, t, c)
    ensures Core(Step(Undone(p, t, c), Disable)) == Undone(Step(p, Disable), t, c) <==> !Slips(p, Disable, t, c)
    ensures Fit(Step(p, Disable), t, c)
  {
    if p.enabled && c.metered {
      assert DeskWithout(p, t, c).queue.capacity ==
             p.queue.capacity + if Holds(DeskOf(p), t) || IsIn(DeskOf(p), t, Throttled) then 1 else 0;
    }
  }

  /** Every step of anything else does with the attempt what it does without it, exactly unless it slips. */
  lemma OtherStepIff(p: Process, op: Op, t: Ticket, c: Call)
    requires Accounted(p) && NoIdleWait(p) && Fit(p, t, c) && t < p.issued
    requires Possible(p, op) && !Concerns(op, t) && !DropsCall(p, op, t)
    requires forall k :: 0 <= k < |p.executions| ==> p.executions[k].ticket != t
    ensures Possible(Undone(p, t, c), op)
    ensures Core(Step(Undone(p, t, c), op)) == Undone(Step(p, op), t, c) <==> !Slips(p, op, t, c)
    ensures Fit(Step(p, op), t, c)
  {
    match op
    case Begin(_, _, _) => OtherBegin(p, op, t, c);
    case Throttle(u) => OtherThrottle(p, u, t, c);
    case Admit(u, won) => OtherAdmit(p, u, won, t, c);
    case Abandon(u) => OtherAbandon(p, u, t, c);
    case Register(u, now) => OtherRegister(p, u, now, t, c);
    case Finalize(_, _) => OtherSettling(p, op, t, c);
    case Stop(_) => OtherSettling(p, op, t, c);
    case Drop(id) => OtherDrop(p, id, t, c);
    case Disable => OtherDisable(p, t, c);
    case _ => OtherRecords(p, op, t, c);
  }

  // ---------------------------------------------------------------- runs

  /** The steps that are not the attempt's. */
  ghost function Others(ops: seq<Op>, t: Ticket): seq<Op> {
    if ops == [] then [] else (if Concerns(ops[0], t) then [] else [ops[0]]) + Others(ops[1..], t)
  }

  predicate OnlyLoses(ops: seq<Op>, t: Ticket) {
    forall i :: 0 <= i < |ops| && Concerns(ops[i], t) ==> Rec.IsLosing(ops[i], t)
  }

  ghost predicate NeverDropped(p: Process, ops: seq<Op>, t: Ticket)
    requires PossibleRun(p, ops)
    decreases |ops|
  {
    ops != [] ==> !DropsCall(p, ops[0], t) && NeverDropped(Step(p, ops[0]), ops[1..], t)
  }

  ghost predicate NeverSlips(p: Process, ops: seq<Op>, t: Ticket, c: Call)
    requires PossibleRun(p, ops)
    decreases |ops|
  {
    ops != [] ==> !Slips(p, ops[0], t, c) && NeverSlips(Step(p, ops[0]), ops[1..], t, c)
  }

  /** `q` goes through the steps that are not the attempt's, and in every state of the run it is what `p`
    * would be without the attempt. */
  ghost predicate Shadows(p: Process, q: Process, ops: seq<Op>, t: Ticket, c: Call)
    requires PossibleRun(p, ops)
    decreases |ops|
  {
    && Core(q) == Undone(p, t, c)
    && (ops != [] ==>
          if Concerns(ops[0], t) then Shadows(Step(p, ops[0]), q, ops[1..], t, c)
          else Possible(q, ops[0]) && Shadows(Step(p, ops[0]), Step(q, ops[0]), ops[1..], t, c))
  }

  lemma SameSettled(p: Process, q: Process, k: nat, how: Settlement)
    requires Core(p) == Core(q) && k < |p.executions|
    ensures Core(Settled(p, k, how)) == Core(Settled(q, k, how))
  {
    SettledForm(p, k, how);
    SettledForm(q, k, how);
    SameRelease(Closed(p, k, how), Closed(q, k, how), p.executions[k].ticket, p.executions[k].metered);
  }

  lemma SameQuiet(p: Process, q: Process, op: Op)
    requires Core(p) == Core(q) && Possible(p, op) && !Settles(op) && !op.Abandon? && !op.Drop?
    ensures Possible(q, op) && Core(Step(p, op)) == Core(Step(q, op))
  {
  }

  lemma SameStep(p: Process, q: Process, op: Op)
    requires Core(p) == Core(q) && Possible(p, op)
    ensures Possible(q, op) && Core(Step(p, op)) == Core(Step(q, op))
  {
    if Settles(op) {
      SettlingForm(p, op);
      SettlingForm(q, op);
      if SettlesOne(p, op) {
        SameSettled(p, q, p.active[op.id], if op.Stop? then Rejected else Resolved(op.run));
      }
    } else if op.Abandon? {
      AbandonForm(p, op.ticket);
      AbandonForm(q, op.ticket);
      SameRelease(Leaving(p, op.ticket), Leaving(q, op.ticket), op.ticket, p.calls[op.ticket].metered);
    } else if !op.Drop? {
      SameQuiet(p, q, op);
    }
  }

  /** What the run of the attempt keeps. */
  ghost predicate UnderWay(p: Process, t: Ticket, c: Call) {
    && Accounted(p) && NoIdleWait(p) && Fit(p, t, c) && t < p.issued && c.phase == Begun
    && (forall k :: 0 <= k < |p.executions| ==> p.executions[k].ticket != t)
  }

  lemma StaysUnderWay(p: Process, op: Op, t: Ticket, c: Call)
    requires UnderWay(p, t, c) && Possible(p, op) && !DropsCall(p, op, t)
    requires Concerns(op, t) ==> Rec.IsLosing(op, t)
    ensures UnderWay(Step(p, op), t, c)
  {
    StepAccounts(p, op);
    StepNoIdleWait(p, op);
    NoRecordOf(p, op, t);
    if Concerns(op, t) {
      OwnStep(p, op, t, c);
    } else {
      OtherStepIff(p, op, t, c);
    }
  }

  /** Over every run in which the attempt is not cancelled and does not win: it leaves no trace in any state,
    * beyond the place or the slot it has, exactly when no step slips. */
  lemma {:induction false} ShadowsIff(p: Process, q: Process, ops: seq<Op>, t: Ticket, c: Call)
    requires UnderWay(p, t, c) && Core(q) == Undone(p, t, c)
    requires PossibleRun(p, ops) && OnlyLoses(ops, t) && NeverDropped(p, ops, t)
    ensures Shadows(p, q, ops, t, c) <==> NeverSlips(p, ops, t, c)
    decreases |ops|
  {
    if ops != [] {
      var op, r := ops[0], Step(p, ops[0]);
      StaysUnderWay(p, op, t, c);
      if Concerns(op, t) {
        OwnStep(p, op, t, c);
        ShadowsIff(r, q, ops[1..], t, c);
      } else {
        OtherStepIff(p, op, t, c);
        SameStep(Undone(p, t, c), q, op);
        if !Slips(p, op, t, c) {
          ShadowsIff(r, Step(q, op), ops[1..], t, c);
        }
      }
    }
  }

  /** What shadows the run ends as what the run would end as without the attempt. */
  lemma {:induction false} ShadowEnds(p: Process, q: Process, ops: seq<Op>, t: Ticket, c: Call)
    requires PossibleRun(p, ops) && Shadows(p, q, ops, t, c)
    ensures PossibleRun(q, Others(ops, t)) && Core(After(q, Others(ops, t))) == Undone(After(p, ops), t, c)
    decreases |ops|
  {
    if ops != [] {
      var op, rest := ops[0], Others(ops[1..], t);
      if Concerns(op, t) {
        assert Others(ops, t) == rest;
        ShadowEnds(Step(p, op), q, ops[1..], t, c);
      } else {
        ShadowEnds(Step(p, op), Step(q, op), ops[1..], t, c);
        assert ([op] + rest)[1..] == rest && Others(ops, t) == [op] + rest;
      }
    }
  }

  // ---------------------------------------------------------------- the attempt is over

  lemma ReleaseKeepsPhase(p: Process, u: Ticket, metered: bool, t: Ticket)
    requires p.enabled ==> !Waits(p.queue.waiting, t)
    ensures t in Released(p, u, metered).calls <==> t in p.calls
    ensures t in p.calls ==> Released(p, u, metered).calls[t] == p.calls[t]
  {
    ReleasedForm(p, u, metered);
  }

  lemma StaysDropped(p: Process, op: Op, t: Ticket)
    requires Accounted(p) && Possible(p, op) && InPhase(p, t, Dropped)
    ensures InPhase(Step(p, op), t, Dropped)
  {
    if Settles(op) {
      SettlingForm(p, op);
      if SettlesOne(p, op) {
        var k, how := p.active[op.id], if op.Stop? then Rejected else Resolved(op.run);
        SettledForm(p, k, how);
        ReleaseKeepsPhase(Closed(p, k, how), p.executions[k].ticket, p.executions[k].metered, t);
      }
    } else if op.Abandon? {
      AbandonForm(p, op.ticket);
      ReleaseKeepsPhase(Leaving(p, op.ticket), op.ticket, p.calls[op.ticket].metered, t);
    } else if op.Drop? {
      DropForm(p, op.id);
      if p.enabled {
        DropsOthers(p, op.id, t);
      }
    } else {
      QuietKeepsDropped(p, op, t);
    }
  }

  lemma QuietKeepsDropped(p: Process, op: Op, t: Ticket)
    requires Accounted(p) && Possible(p, op) && InPhase(p, t, Dropped) && !Settles(op) && !op.Abandon? && !op.Drop?
    ensures InPhase(Step(p, op), t, Dropped)
  {
  }

  lemma DropsOthers(p: Process, id: ExecutionId, t: Ticket)
    requires Accounted(p) && p.enabled && InPhase(p, t, Dropped)
    ensures IsIn(DroppedAt(DeskOf(p), id), t, Dropped)
  {
    var w := p.queue.waiting;
    var i := Q.FirstIndex(w, id);
    if i < |w| {
      assert forall j :: 0 <= j < |Cut(w, i)| ==> Cut(w, i)[j] == w[if j < i then j else j + 1];
    }
  }

  /** A call that has thrown was never cancelled in the queue. */
  lemma {:induction false} ThrownNotDropped(p: Process, ops: seq<Op>, t: Ticket)
    requires Accounted(p) && PossibleRun(p, ops) && t !in After(p, ops).calls
    ensures !InPhase(p, t, Dropped) && NeverDropped(p, ops, t)
    decreases |ops|
  {
    if ops != [] {
      StepAccounts(p, ops[0]);
      ThrownNotDropped(Step(p, ops[0]), ops[1..], t);
      if InPhase(p, t, Dropped) {
        StaysDropped(p, ops[0], t);
      }
      if DropsCall(p, ops[0], t) {
        DropForm(p, ops[0].id);
        DropDrops(p, ops[0].id, t);
      }
    }
  }

  lemma DropDrops(p: Process, id: ExecutionId, t: Ticket)
    requires Accounted(p) && DropsCall(p, Drop(id), t)
    ensures IsIn(DroppedAt(DeskOf(p), id), t, Dropped)
  {
    var w := p.queue.waiting;
    var i := Q.FirstIndex(w, id);
    assert forall j :: 0 <= j < |Cut(w, i)| ==> Cut(w, i)[j] == w[if j < i then j else j + 1];
  }

  lemma NoRecordOf(p: Process, op: Op, t: Ticket)
    requires Possible(p, op) && (Concerns(op, t) ==> Rec.IsLosing(op, t)) && t < p.issued
    requires forall k :: 0 <= k < |p.executions| ==> p.executions[k].ticket != t
    ensures var r := Step(p, op); t < r.issued && forall k :: 0 <= k < |r.executions| ==> r.executions[k].ticket != t
  {
    if Settles(op) {
      if Recorded(p, op.id) {
        SettledEffect(p, p.active[op.id], if op.Stop? then Rejected else Resolved(op.run));
      }
    } else if op.Abandon? {
      AbandonForm(p, op.ticket);
      ReleasedEffect(Leaving(p, op.ticket), op.ticket, p.calls[op.ticket].metered);
    } else if !op.Begin? && !op.Register? {
      StepSameRecords(p, op);
    }
  }

  lemma UndoneBegun(p: Process, t: Ticket, c: Call)
    requires InPhase(p, t, Begun) && p.calls[t] == c
    ensures Undone(p, t, c) == Core(p)
  {
    assert p.calls[t := c] == p.calls;
  }

  lemma UndoneGone(p: Process, t: Ticket, c: Call)
    requires t !in p.calls
    ensures Undone(p, t, c) == Core(p).(calls := p.calls[t := c]) && p.calls[t := c] - {t} == p.calls
  {
  }

  lemma UnderWayAtFirst(p: Process, t: Ticket)
    requires Accounted(p) && NoIdleWait(p) && InPhase(p, t, Begun)
    ensures UnderWay(p, t, p.calls[t])
  {
    if p.enabled {
      assert !HoldsSlot(p, t);
    }
  }

  /** In every reachable state, for every call that begins and loses: whatever else happens between its steps
    * and however long it waits in the queue, the process shadows the run without it exactly when no step
    * slips; and then, once the call has thrown, record map, records, response modes, queue, free capacity and
    * all other calls are what the other steps alone make of them. */
  lemma LeavesNoTrace(limit: nat, enabled: bool, before: seq<Op>, ops: seq<Op>, t: Ticket)
    requires PossibleRun(Fresh(limit, enabled), before)
    requires var p := After(Fresh(limit, enabled), before);
             InPhase(p, t, Begun) && PossibleRun(p, ops) && OnlyLoses(ops, t) && t !in After(p, ops).calls
    ensures var p := After(Fresh(limit, enabled), before);
            && (Shadows(p, p, ops, t, p.calls[t]) <==> NeverSlips(p, ops, t, p.calls[t]))
            && (NeverSlips(p, ops, t, p.calls[t]) ==>
                  && PossibleRun(p, Others(ops, t))
                  && var r, s := After(p, ops), After(p, Others(ops, t));
                     && Rec.SameShared(s, r)
                     && r.queue == s.queue && r.enabled == s.enabled && r.issued == s.issued
                     && r.calls == s.calls - {t})
  {
    var p := After(Fresh(limit, enabled), before);
    FreshAccounted(limit, enabled);
    RunAccounts(Fresh(limit, enabled), before);
    RunNoIdleWait(Fresh(limit, enabled), before);
    UnderWayAtFirst(p, t);
    UndoneBegun(p, t, p.calls[t]);
    ThrownNotDropped(p, ops, t);
    ShadowsIff(p, p, ops, t, p.calls[t]);
    if NeverSlips(p, ops, t, p.calls[t]) {
      ShadowEnds(p, p, ops, t, p.calls[t]);
      UndoneGone(After(p, ops), t, p.calls[t]);
    }
  }
}
