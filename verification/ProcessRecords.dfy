/** The record map of a process: when it stays consistent although promise reactions delete by id,
  * what goes wrong otherwise, and what resuming carries over. */
module ProcessRecords {
  import opened Wrappers
  import opened ProcessModel
  import opened ProcessCapacity
  import Q = ConcurrencyQueue

  ghost predicate IdsMatch(p: Process) {
    forall id :: id in p.active ==> p.active[id] < |p.executions| && p.executions[p.active[id]].id == id
  }

  /** The map holds no record but the newest of its id. */
  ghost predicate NewestOnly(p: Process) {
    forall id, k :: id in p.active && 0 <= k < |p.executions| && p.executions[k].id == id ==> k <= p.active[id]
  }

  /** Every unsettled record is the one its id maps to, and a mapped record that is not waiting is unsettled. */
  ghost predicate Consistent(p: Process) {
    && IdsMatch(p)
    && (forall k :: 0 <= k < |p.executions| && p.executions[k].settlement.Pending? ==>
          var id := p.executions[k].id; id in p.active && p.active[id] == k)
    && (forall id :: id in p.active && p.executions[p.active[id]].status != Waiting ==>
          p.executions[p.active[id]].settlement.Pending?)
  }

  /** A1: no record is registered over an unsettled one. A2: a record that reports waiting has settled
    * before it is stopped. A3: a settled record is not given another status than waiting. */
  ghost predicate Orderly(p: Process, op: Op)
    requires Possible(p, op)
  {
    match op
    case Register(t, _) => Recorded(p, p.calls[t].id) ==> !Current(p, p.calls[t].id).settlement.Pending?
    case Stop(id) => Recorded(p, id) && Current(p, id).status == Waiting ==> !Current(p, id).settlement.Pending?
    case SetStatus(id, status) => Recorded(p, id) && status != Waiting ==> Current(p, id).settlement.Pending?
    case _ => true
  }

  /** What a settling operation does to records and map, leaving capacity aside. */
  ghost predicate SettlingEffect(p: Process, op: Op, r: Process)
    requires IdsMatch(p) && Settles(op)
  {
    if !Recorded(p, op.id) then r.executions == p.executions && r.active == p.active
    else
      var k, e := p.active[op.id], Current(p, op.id);
      if e.status == Waiting && op.Stop? then r.executions == p.executions && r.active == p.active - {op.id}
      else if !e.settlement.Pending? then r.executions == p.executions && r.active == p.active
      else
        && (exists how, attached :: how != Pending && (e.status == Waiting ==> !attached)
              && r.executions == p.executions[k := e.(settlement := how, attached := attached)])
        && r.active == if e.status == Waiting then p.active else p.active - {op.id}
  }

  ghost predicate RegisterEffect(p: Process, op: Op, r: Process)
    requires Possible(p, op) && op.Register?
  {
    var id := p.calls[op.ticket].id;
    exists e: Execution ::
      && e.id == id && e.settlement.Pending? && e.status == Running
      && r.executions == p.executions + [e] && r.active == p.active[id := |p.executions|]
      && (if Recorded(p, id)
          then e.startedAt == Current(p, id).startedAt && e.responsePromise == Current(p, id).responsePromise
          else e.startedAt == op.now && e.responsePromise == None)
  }

  ghost predicate SameButStatus(e: Execution, f: Execution) {
    f.id == e.id && f.settlement == e.settlement && f.startedAt == e.startedAt
  }

  ghost predicate QuietEffect(p: Process, op: Op, r: Process) {
    && r.active == p.active && |r.executions| == |p.executions|
    && (forall k :: 0 <= k < |p.executions| ==> SameButStatus(p.executions[k], r.executions[k]))
    && (op.SetStatus? ==>
          if Recorded(p, op.id)
          then r.executions == p.executions[p.active[op.id] := Current(p, op.id).(status := op.status)]
          else r.executions == p.executions)
    && (!op.SetStatus? ==> forall k :: 0 <= k < |p.executions| ==> r.executions[k].status == p.executions[k].status)
    && (op.AttachResponse? ==>
          if Recorded(p, op.id)
          then r.executions == p.executions[p.active[op.id] := Current(p, op.id).(responsePromise := Some(op.promise))]
          else r.executions == p.executions)
    && (!op.AttachResponse? ==>
          forall k :: 0 <= k < |p.executions| ==> r.executions[k].responsePromise == p.executions[k].responsePromise)
  }

  ghost predicate Effect(p: Process, op: Op, r: Process)
    requires IdsMatch(p) && Possible(p, op)
  {
    if Settles(op) then SettlingEffect(p, op, r)
    else if op.Register? then RegisterEffect(p, op, r)
    else QuietEffect(p, op, r)
  }

  lemma StepSettlingEffect(p: Process, op: Op)
    requires IdsMatch(p) && Settles(op)
    ensures SettlingEffect(p, op, Step(p, op))
  {
    if Recorded(p, op.id) && Current(p, op.id).settlement.Pending? {
      var e := Current(p, op.id);
      var how := if op.Stop? then Rejected else Resolved(op.run);
      SettledEffect(p, p.active[op.id], how);
      if !(e.status == Waiting && op.Stop?) {
        assert Step(p, op).executions ==
               p.executions[p.active[op.id] := e.(settlement := how, attached := e.attached && e.status != Waiting)];
      }
    }
  }

  lemma StepRegisterEffect(p: Process, op: Op)
    requires Possible(p, op) && op.Register?
    ensures RegisterEffect(p, op, Step(p, op))
  {
    var e := NewRecord(p, op.ticket, op.now);
    assert Step(p, op).executions == p.executions + [e];
  }

  lemma LeavesRecords(p: Process, op: Op)
    requires Possible(p, op) && !Settles(op) && !op.Register? && !IsUpdate(op)
    ensures Step(p, op).executions == p.executions && Step(p, op).active == p.active
  {
  }

  lemma UpdateEffect(p: Process, op: Op)
    requires IsUpdate(op)
    ensures QuietEffect(p, op, Step(p, op))
  {
  }

  lemma QuietFrame(p: Process, op: Op, r: Process)
    requires !IsUpdate(op) && r.executions == p.executions && r.active == p.active
    ensures QuietEffect(p, op, r)
  {
  }

  lemma StepQuietEffect(p: Process, op: Op)
    requires Possible(p, op) && !Settles(op) && !op.Register?
    ensures QuietEffect(p, op, Step(p, op))
  {
    if IsUpdate(op) {
      UpdateEffect(p, op);
    } else {
      LeavesRecords(p, op);
      QuietFrame(p, op, Step(p, op));
    }
  }

  lemma StepEffect(p: Process, op: Op)
    requires IdsMatch(p) && Possible(p, op)
    ensures Effect(p, op, Step(p, op))
  {
    if Settles(op) {
      StepSettlingEffect(p, op);
    } else if op.Register? {
      StepRegisterEffect(p, op);
    } else {
      StepQuietEffect(p, op);
    }
  }

  lemma SettlingNewest(p: Process, op: Op, r: Process)
    requires IdsMatch(p) && NewestOnly(p) && Settles(op) && SettlingEffect(p, op, r)
    ensures IdsMatch(r) && NewestOnly(r)
  {
    assert |r.executions| == |p.executions|;
    assert forall k :: 0 <= k < |p.executions| ==> r.executions[k].id == p.executions[k].id;
    assert forall id :: id in r.active ==> id in p.active && r.active[id] == p.active[id];
  }

  lemma QuietNewest(p: Process, op: Op, r: Process)
    requires IdsMatch(p) && NewestOnly(p) && QuietEffect(p, op, r)
    ensures IdsMatch(r) && NewestOnly(r)
  {
    assert forall k :: 0 <= k < |p.executions| ==> SameButStatus(p.executions[k], r.executions[k]);
  }

  lemma RegisterNewest(p: Process, op: Op, r: Process)
    requires IdsMatch(p) && NewestOnly(p) && Possible(p, op) && op.Register? && RegisterEffect(p, op, r)
    ensures IdsMatch(r) && NewestOnly(r)
  {
    assert forall k :: 0 <= k < |p.executions| ==> r.executions[k] == p.executions[k];
  }

  lemma EffectNewest(p: Process, op: Op, r: Process)
    requires IdsMatch(p) && NewestOnly(p) && Possible(p, op) && Effect(p, op, r)
    ensures IdsMatch(r) && NewestOnly(r)
  {
    if Settles(op) {
      SettlingNewest(p, op, r);
    } else if op.Register? {
      RegisterNewest(p, op, r);
    } else {
      QuietNewest(p, op, r);
    }
  }

  lemma StepNewest(p: Process, op: Op)
    requires IdsMatch(p) && NewestOnly(p) && Possible(p, op)
    ensures IdsMatch(Step(p, op)) && NewestOnly(Step(p, op))
  {
    StepEffect(p, op);
    EffectNewest(p, op, Step(p, op));
  }

  lemma RegisterConsistent(p: Process, op: Op, r: Process)
    requires Consistent(p) && Possible(p, op) && op.Register? && RegisterEffect(p, op, r)
    ensures Consistent(r) <==> Orderly(p, op)
  {
    var n, id := |p.executions|, p.calls[op.ticket].id;
    assert r.executions[n].id == id && r.executions[n].settlement.Pending? && r.active[id] == n;
    assert forall k :: 0 <= k < n ==> r.executions[k] == p.executions[k];
    if id in p.active && Current(p, id).settlement.Pending? {
      assert r.executions[p.active[id]].settlement.Pending?;
    }
  }

  lemma SettlingConsistent(p: Process, op: Op, r: Process)
    requires Consistent(p) && Settles(op) && SettlingEffect(p, op, r)
    ensures Consistent(r) <==> Orderly(p, op)
  {
    if Recorded(p, op.id) {
      var k := p.active[op.id];
      assert p.executions[k].id == op.id;
      if op.Stop? && Current(p, op.id).status == Waiting && Current(p, op.id).settlement.Pending? {
        assert r.executions[k].settlement.Pending? && op.id !in r.active;
      }
    }
  }

  lemma QuietConsistent(p: Process, op: Op, r: Process)
    requires Consistent(p) && Possible(p, op) && !Settles(op) && !op.Register? && QuietEffect(p, op, r)
    ensures Consistent(r) <==> Orderly(p, op)
  {
    assert forall k :: 0 <= k < |p.executions| ==> SameButStatus(p.executions[k], r.executions[k]);
    if op.SetStatus? && Recorded(p, op.id) {
      assert r.executions[r.active[op.id]].status == op.status;
    }
  }

  /** A step keeps the map consistent exactly when it respects A1, A2 and A3. */
  lemma StepConsistentIff(p: Process, op: Op)
    requires Consistent(p) && Possible(p, op)
    ensures Consistent(Step(p, op)) <==> Orderly(p, op)
  {
    StepEffect(p, op);
    if op.Register? {
      RegisterConsistent(p, op, Step(p, op));
    } else if Settles(op) {
      SettlingConsistent(p, op, Step(p, op));
    } else {
      QuietConsistent(p, op, Step(p, op));
    }
  }

  ghost predicate AlwaysConsistent(p: Process, ops: seq<Op>)
    requires PossibleRun(p, ops)
    decreases |ops|
  {
    Consistent(p) && (ops != [] ==> AlwaysConsistent(Step(p, ops[0]), ops[1..]))
  }

  ghost predicate OrderlyRun(p: Process, ops: seq<Op>)
    requires PossibleRun(p, ops)
    decreases |ops|
  {
    ops != [] ==> Orderly(p, ops[0]) && OrderlyRun(Step(p, ops[0]), ops[1..])
  }

  /** Over whole runs: the map is consistent in every state exactly when every step is orderly. */
  lemma {:induction false} ConsistentThroughoutIff(p: Process, ops: seq<Op>)
    requires Consistent(p) && PossibleRun(p, ops)
    ensures AlwaysConsistent(p, ops) <==> OrderlyRun(p, ops)
    decreases |ops|
  {
    if ops != [] {
      StepConsistentIff(p, ops[0]);
      if Orderly(p, ops[0]) {
        ConsistentThroughoutIff(Step(p, ops[0]), ops[1..]);
      }
    }
  }

  /** Over every run, with no assumption on callers, the map holds no record but the newest of its id. */
  lemma {:induction false} NewestThroughout(p: Process, ops: seq<Op>)
    requires IdsMatch(p) && NewestOnly(p) && PossibleRun(p, ops)
    ensures IdsMatch(After(p, ops)) && NewestOnly(After(p, ops))
    decreases |ops|
  {
    if ops != [] {
      StepNewest(p, ops[0]);
      NewestThroughout(Step(p, ops[0]), ops[1..]);
    }
  }

  /** The by-id delete of a reaction only ever removes the record that settled. From matching ids alone,
    * since settling and reaction are one step: when finalizing or stopping takes an id out of the map, the
    * record it mapped to was unsettled before, is settled after, and had not reported waiting, but for a
    * stop that forgets a waiting record and settles nothing; every other entry stays. And an unsettled
    * record that has not reported waiting always goes. */
  lemma SettlingDeletesItsOwn(p: Process, op: Op)
    requires IdsMatch(p) && Settles(op)
    ensures var r, id := Step(p, op), op.id;
            && (forall other :: other != id ==>
                  (other in r.active <==> other in p.active)
                    && (other in p.active ==> r.active[other] == p.active[other]))
            && (id in r.active ==> id in p.active && r.active[id] == p.active[id])
            && (id in p.active && id !in r.active ==>
                  var e, f := Current(p, id), r.executions[p.active[id]];
                  if e.status == Waiting then op.Stop? && f == e else e.settlement.Pending? && !f.settlement.Pending?)
            && (id in p.active && Current(p, id).settlement.Pending? && Current(p, id).status != Waiting ==>
              id !in r.active)
  {
    StepEffect(p, op);
  }

  /** In a consistent map, whatever takes record `k` out of it: a reaction to its own settlement, a stop that
    * forgets it after it settled as waiting, or a resume that takes its place after it did. And a run that
    * settles keeps its record exactly when it settles as waiting, and then lets go of its workflow execution. */
  lemma DeletesOnlyItsOwn(p: Process, op: Op, k: nat)
    requires Consistent(p) && Possible(p, op) && Orderly(p, op) && k < |p.executions|
    ensures var r, id := Step(p, op), p.executions[k].id;
            && k < |r.executions|
            && (Mapped(p, id, k) && !Mapped(r, id, k) ==>
              !r.executions[k].settlement.Pending? && LeavesProperly(p, op, k))
            && (p.executions[k].settlement.Pending? && !r.executions[k].settlement.Pending? ==>
                  && Settles(op) && op.id == id && (Mapped(r, id, k) <==> p.executions[k].status == Waiting)
                  && (Mapped(r, id, k) ==> !r.executions[k].attached))
  {
    StepEffect(p, op);
    EffectDeletes(p, op, Step(p, op), k);
  }

  ghost predicate LeavesProperly(p: Process, op: Op, k: nat)
    requires Possible(p, op) && k < |p.executions|
  {
    var e := p.executions[k];
    || (Settles(op) && op.id == e.id && e.settlement.Pending? && e.status != Waiting)
    || (op.Stop? && op.id == e.id && !e.settlement.Pending? && e.status == Waiting)
    || (op.Register? && p.calls[op.ticket].id == e.id && !e.settlement.Pending? && e.status == Waiting)
  }

  predicate Mapped(p: Process, id: ExecutionId, k: nat) {
    id in p.active && p.active[id] == k
  }

  lemma EffectDeletes(p: Process, op: Op, r: Process, k: nat)
    requires Consistent(p) && Possible(p, op) && Orderly(p, op) && k < |p.executions| && Effect(p, op, r)
    ensures k < |r.executions|
    ensures var id := p.executions[k].id;
            && (Mapped(p, id, k) && !Mapped(r, id, k) ==>
              !r.executions[k].settlement.Pending? && LeavesProperly(p, op, k))
            && (p.executions[k].settlement.Pending? && !r.executions[k].settlement.Pending? ==>
                  && Settles(op) && op.id == id && (Mapped(r, id, k) <==> p.executions[k].status == Waiting)
                  && (Mapped(r, id, k) ==> !r.executions[k].attached))
  {
    if !op.Register? && !Settles(op) {
      assert SameButStatus(p.executions[k], r.executions[k]);
    }
  }

  /** The response mode of an id goes when its record goes, and no other response mode does. */
  lemma ResponseModesFollow(p: Process, op: Op, id: ExecutionId)
    requires Consistent(p) && Possible(p, op) && !op.SetResponseMode?
    ensures var r := Step(p, op);
            if id in p.active && id !in r.active then id !in r.responseModes
            else (id in r.responseModes <==> id in p.responseModes)
                 && (id in p.responseModes ==> r.responseModes[id] == p.responseModes[id])
  {
    if Settles(op) {
      if Recorded(p, op.id) && Current(p, op.id).settlement.Pending? {
        SettledEffect(p, p.active[op.id], if op.Stop? then Rejected else Resolved(op.run));
      }
    } else {
      StepEffect(p, op);
    }
  }

  // ---------------------------------------------------------------- what a broken A1 costs

  /** An unsettled record that no id maps to. */
  ghost predicate Orphan(p: Process, k: nat) {
    && k < |p.executions| && p.executions[k].settlement.Pending?
    && !(p.executions[k].id in p.active && p.active[p.executions[k].id] == k)
  }

  lemma EffectOrphan(p: Process, op: Op, r: Process, k: nat)
    requires IdsMatch(p) && Possible(p, op) && Effect(p, op, r) && Orphan(p, k)
    ensures Orphan(r, k)
  {
    if !op.Register? && !Settles(op) {
      assert SameButStatus(p.executions[k], r.executions[k]);
    }
  }

  /** Nothing settles an orphan any more: its promise hangs and its capacity is never given back. */
  lemma {:induction false} OrphanForever(p: Process, ops: seq<Op>, k: nat)
    requires IdsMatch(p) && NewestOnly(p) && PossibleRun(p, ops) && Orphan(p, k)
    ensures Orphan(After(p, ops), k)
    decreases |ops|
  {
    if ops != [] {
      StepNewest(p, ops[0]);
      StepEffect(p, ops[0]);
      EffectOrphan(p, ops[0], Step(p, ops[0]), k);
      OrphanForever(Step(p, ops[0]), ops[1..], k);
    }
  }

  /** From a consistent map, a step strands a record exactly when it breaks A1 or A2. */
  lemma StrandsIff(p: Process, op: Op)
    requires Consistent(p) && Possible(p, op) && !op.SetStatus?
    ensures (exists k :: Orphan(Step(p, op), k)) <==> !Orderly(p, op)
  {
    StepEffect(p, op);
    StepConsistentIff(p, op);
    var r := Step(p, op);
    if Orderly(p, op) {
      assert forall k :: !Orphan(r, k);
    } else {
      var id := if op.Register? then p.calls[op.ticket].id else op.id;
      EffectStrands(p, op, r, id);
      assert Orphan(r, p.active[id]);
    }
  }

  lemma EffectStrands(p: Process, op: Op, r: Process, id: ExecutionId)
    requires Consistent(p) && Possible(p, op) && !op.SetStatus? && !Orderly(p, op) && Effect(p, op, r)
    requires id == if op.Register? then p.calls[op.ticket].id else op.id
    ensures id in p.active && Orphan(r, p.active[id])
  {
  }

  /** What a broken A1 does: a run that has reported waiting is resumed before it is finalized, and its
    * late finalize settles the new run by id. The live record is deleted and the old promise hangs. */
  lemma EarlyResumeLosesTheRecord(p: Process, t: Ticket, now: int, run: Option<Status>)
    requires Consistent(p) && InPhase(p, t, Admitted)
    requires var id := p.calls[t].id;
             id in p.active && Current(p, id).settlement.Pending? && Current(p, id).status == Waiting
    ensures var id, r := p.calls[t].id, Step(Step(p, Register(t, now)), Finalize(p.calls[t].id, run));
            && id !in r.active && Orphan(r, p.active[id])
            && r.executions[|p.executions|].status == Running
            && r.executions[|p.executions|].settlement == Resolved(run)
  {
    var id, n := p.calls[t].id, |p.executions|;
    var q := Step(p, Register(t, now));
    assert q.executions[n] == NewRecord(p, t, now) && q.active[id] == n;
    assert q.executions[p.active[id]] == p.executions[p.active[id]];
    SettledEffect(q, n, Resolved(run));
  }

  /** An execution that has started and reported waiting, and has not been finalized yet. */
  ghost predicate Parking(p: Process, startedAt: int) {
    && p.executions == [Execution("x", 0, false, startedAt, Waiting, Pending, None, false)]
    && p.active == map["x" := 0] && p.issued == 1
  }

  ghost predicate Starting(p: Process, t: Ticket, resume: bool, phase: Phase) {
    p.calls == map[t := Call("x", resume, false, phase)] && p.issued == t + 1
  }

  lemma UnmeteredAdmitted(p: Process, resume: bool)
    requires p.calls == map[]
    ensures var t := p.issued;
            var q := Step(p, Begin("x", resume, false));
            && Starting(q, t, resume, Begun)
            && var q2 := Step(q, Throttle(t));
               && Starting(q2, t, resume, Reserved)
               && var q3 := Step(q2, Admit(t, true));
                  && Starting(q3, t, resume, Admitted) && q3.executions == p.executions && q3.active == p.active
  {
  }

  /** A process in that state can be reached under any limit. */
  lemma ParkingReachable(limit: nat, enabled: bool, startedAt: int) returns (ops: seq<Op>)
    ensures PossibleRun(Fresh(limit, enabled), ops)
    ensures var p := After(Fresh(limit, enabled), ops); Parking(p, startedAt) && p.calls == map[] && Consistent(p)
  {
    var p := Fresh(limit, enabled);
    UnmeteredAdmitted(p, false);
    Extend(p, [], Begin("x", false, false));
    ops := [] + [Begin("x", false, false)];
    Extend(p, ops, Throttle(0));
    ops := ops + [Throttle(0)];
    Extend(p, ops, Admit(0, true));
    ops := ops + [Admit(0, true)];
    RegisteredThenWaiting(After(p, ops), startedAt);
    Extend(p, ops, Register(0, startedAt));
    ops := ops + [Register(0, startedAt)];
    Extend(p, ops, Op.SetStatus("x", Waiting));
    ops := ops + [Op.SetStatus("x", Waiting)];
  }

  lemma RegisteredThenWaiting(p: Process, startedAt: int)
    requires Starting(p, 0, false, Admitted) && p.executions == [] && p.active == map[]
    ensures var r := Step(Step(p, Register(0, startedAt)), Op.SetStatus("x", Waiting));
            Parking(r, startedAt) && r.calls == map[]
  {
    var q := Step(p, Register(0, startedAt));
    assert q.executions == [Execution("x", 0, false, startedAt, Running, Pending, None, false)];
    assert q.active == map["x" := 0];
  }

  /** A2 can be broken: stopping the execution before it is finalized strands its record. */
  lemma EarlyStopReachable(limit: nat, enabled: bool, startedAt: int) returns (ops: seq<Op>)
    ensures PossibleRun(Fresh(limit, enabled), ops)
    ensures var p := After(Fresh(limit, enabled), ops);
            Consistent(p) && !Orderly(p, Stop("x")) && Orphan(Step(p, Stop("x")), 0)
  {
    ops := ParkingReachable(limit, enabled, startedAt);
    var p := After(Fresh(limit, enabled), ops);
    assert Step(p, Stop("x")).executions == p.executions && "x" !in Step(p, Stop("x")).active;
  }

  lemma ParkingResumed(p: Process, startedAt: int, now: int)
    requires Parking(p.(issued := 1), startedAt) && Starting(p, 1, true, Admitted) && Consistent(p)
    ensures Possible(p, Register(1, now)) && !Orderly(p, Register(1, now))
    ensures var r := Step(Step(p, Register(1, now)), Finalize("x", None));
            && Orphan(r, 0) && "x" !in r.active
            && |r.executions| == 2 && r.executions[1].status == Running && r.executions[1].settlement == Resolved(None)
  {
    EarlyResumeLosesTheRecord(p, 1, now, None);
    var q := Step(p, Register(1, now));
    assert q.active == map["x" := 1] && |q.executions| == 2;
    SettledEffect(q, 1, Resolved(None));
  }

  lemma SameRecordsConsistent(p: Process, r: Process)
    requires Consistent(p) && r.executions == p.executions && r.active == p.active
    ensures Consistent(r)
  {
  }

  /** A1 can be broken: the execution is resumed before it is finalized, which strands its record, and its late
    * finalize settles and deletes the record of the resumed run. */
  lemma EarlyResumeReachable(limit: nat, enabled: bool, startedAt: int, now: int) returns (ops: seq<Op>)
    ensures PossibleRun(Fresh(limit, enabled), ops)
    ensures var p := After(Fresh(limit, enabled), ops);
            && Consistent(p) && Possible(p, Register(1, now)) && !Orderly(p, Register(1, now))
            && var r := Step(Step(p, Register(1, now)), Finalize("x", None));
               && Orphan(r, 0) && "x" !in r.active
               && |r.executions| == 2 && r.executions[1].status == Running
               && r.executions[1].settlement == Resolved(None)
  {
    var p := Fresh(limit, enabled);
    ops := ParkingReachable(limit, enabled, startedAt);
    var q := After(p, ops);
    UnmeteredAdmitted(q, true);
    Extend(p, ops, Begin("x", true, false));
    ops := ops + [Begin("x", true, false)];
    Extend(p, ops, Throttle(1));
    ops := ops + [Throttle(1)];
    Extend(p, ops, Admit(1, true));
    ops := ops + [Admit(1, true)];
    SameRecordsConsistent(q, After(p, ops));
    ParkingResumed(After(p, ops), startedAt, now);
  }

  // ---------------------------------------------------------------- what a resume carries over

  lemma StepCarriesOver(p: Process, op: Op, id: ExecutionId)
    requires IdsMatch(p) && NewestOnly(p) && Possible(p, op)
    requires id in p.active && id in Step(p, op).active
    ensures var r := Step(p, op);
            && Recorded(r, id)
            && Current(r, id).startedAt == Current(p, id).startedAt
            && Current(r, id).responsePromise ==
                 if op.AttachResponse? && op.id == id then Some(op.promise) else Current(p, id).responsePromise
  {
    StepNewest(p, op);
    StepEffect(p, op);
    EffectCarriesOver(p, op, Step(p, op), id);
  }

  lemma EffectCarriesOver(p: Process, op: Op, r: Process, id: ExecutionId)
    requires IdsMatch(p) && Possible(p, op) && Effect(p, op, r) && IdsMatch(r)
    requires id in p.active && id in r.active
    ensures Recorded(r, id)
    ensures Current(r, id).startedAt == Current(p, id).startedAt
    ensures Current(r, id).responsePromise ==
            if op.AttachResponse? && op.id == id then Some(op.promise) else Current(p, id).responsePromise
  {
    if Settles(op) {
    } else if op.Register? {
      assert forall k :: 0 <= k < |p.executions| ==> r.executions[k] == p.executions[k];
    } else {
      assert SameButStatus(p.executions[p.active[id]], r.executions[p.active[id]]);
      if op.AttachResponse? && op.id in p.active {
        assert p.active[op.id] == p.active[id] ==> op.id == id;
      }
    }
  }

  ghost predicate AlwaysActive(p: Process, ops: seq<Op>, id: ExecutionId)
    requires PossibleRun(p, ops)
    decreases |ops|
  {
    id in p.active && (ops != [] ==> AlwaysActive(Step(p, ops[0]), ops[1..], id))
  }

  /** The response promise attached last to an id, or the one it started with. */
  ghost function LastAttached(ops: seq<Op>, id: ExecutionId, first: Option<nat>): Option<nat>
    decreases |ops|
  {
    if ops == [] then first
    else LastAttached(ops[1..], id,
                      if ops[0].AttachResponse? && ops[0].id == id then Some(ops[0].promise) else first)
  }

  /** While an id stays in the map, over any number of park and resume cycles, its start time never
    * changes and its response promise is the one attached last. */
  lemma {:induction false} CarriedOver(p: Process, ops: seq<Op>, id: ExecutionId)
    requires IdsMatch(p) && NewestOnly(p) && PossibleRun(p, ops) && AlwaysActive(p, ops, id)
    ensures var r := After(p, ops);
            && Recorded(r, id)
            && Current(r, id).startedAt == Current(p, id).startedAt
            && Current(r, id).responsePromise == LastAttached(ops, id, Current(p, id).responsePromise)
    decreases |ops|
  {
    if ops != [] {
      StepCarriesOver(p, ops[0], id);
      StepNewest(p, ops[0]);
      CarriedOver(Step(p, ops[0]), ops[1..], id);
    }
  }

  // ---------------------------------------------------------------- a losing resume

  /** The part of a process that outlives an `add` call. */
  ghost predicate SameShared(p: Process, r: Process) {
    r.active == p.active && r.executions == p.executions && r.responseModes == p.responseModes
  }

  predicate IsLosing(op: Op, t: Ticket) {
    op == Throttle(t) || op == Admit(t, false) || op == Abandon(t)
  }

  /** No step of a losing `add` call touches the map, the records or the response modes, whatever happens
    * between its steps; and once it has thrown it holds nothing. */
  lemma LosingStepsTouchNothing(p: Process, op: Op, t: Ticket)
    requires Accounted(p) && Possible(p, op) && IsLosing(op, t)
    ensures SameShared(p, Step(p, op))
    ensures op.Abandon? ==>
              var r := Step(p, op);
              t !in r.calls && !HoldsSlot(r, t) && (r.enabled ==> t !in r.queue.granted)
  {
    if op.Abandon? {
      ReleasedEffect(Leaving(p, t), t, p.calls[t].metered);
      StepAccounts(p, op);
    }
  }

  predicate Takes(p: Process, c: Call) {
    p.enabled && c.metered
  }

  ghost function Holding(p: Process, t: Ticket, c: Call): Process {
    p.(calls := p.calls[t := c],
       queue := if Takes(p, c) then Q.State(p.queue.capacity - 1, [], p.queue.granted + {t}) else p.queue)
  }

  lemma LosingThrottle(p: Process, t: Ticket, c: Call)
    requires NoIdleWait(p) && c.phase == Begun && (Takes(p, c) ==> p.queue.capacity > 0)
    ensures Step(p.(calls := p.calls[t := c]), Throttle(t)) == Holding(p, t, c.(phase := Reserved))
  {
    var q := p.(calls := p.calls[t := c]);
    assert q.calls[t := c.(phase := Reserved)] == p.calls[t := c.(phase := Reserved)];
    assert Takes(p, c) ==> p.queue.waiting == [];
  }

  lemma LosingAdmit(p: Process, t: Ticket, c: Call)
    requires c.phase == Reserved
    ensures Step(Holding(p, t, c), Admit(t, false)) == Holding(p, t, c.(phase := Refused))
  {
    assert p.calls[t := c][t := c.(phase := Refused)] == p.calls[t := c.(phase := Refused)];
  }

  lemma LosingAbandon(p: Process, t: Ticket, c: Call)
    requires t !in p.calls && c.phase == Refused
    requires Takes(p, c) ==> p.queue.waiting == [] && t !in p.queue.granted
    ensures Step(Holding(p, t, c), Abandon(t)) == p.(failed := p.failed + {t}, released := p.released + multiset{t})
  {
    assert p.calls[t := c] - {t} == p.calls;
    assert Takes(p, c) ==> p.queue.granted + {t} - {t} == p.queue.granted;
  }

  /** A losing resume that meets no other call leaves the process as it was, free capacity included. */
  lemma LosingResumeIsNoOp(p: Process, id: ExecutionId, metered: bool)
    requires Accounted(p) && NoIdleWait(p) && (p.enabled && metered ==> p.queue.capacity > 0)
    ensures var t := p.issued;
            var begun := Step(p, Begin(id, true, metered));
            && Possible(begun, Throttle(t))
            && var reserved := Step(begun, Throttle(t));
            && Possible(reserved, Admit(t, false))
            && var refused := Step(reserved, Admit(t, false));
            && Possible(refused, Abandon(t))
            && Step(refused, Abandon(t)) ==
               p.(issued := t + 1, failed := p.failed + {t}, released := p.released + multiset{t})
  {
    var t, c := p.issued, Call(id, true, metered, Begun);
    var q := p.(issued := t + 1);
    assert p.enabled ==> t !in p.queue.granted by { assert !HoldsSlot(p, t); }
    LosingThrottle(q, t, c);
    LosingAdmit(q, t, c.(phase := Reserved));
    LosingAbandon(q, t, c.(phase := Refused));
    assert Step(p, Begin(id, true, metered)) == q.(calls := q.calls[t := c]);
  }
}
