/** The ActiveExecutions service, method by method. `add` is cut at its awaits into BeginAdd, Reserve,
  * Admit, and then FailAdd or FinishAdd. Each method is proved against the step of ProcessModel. */
module ActiveExecutionsService {
  import opened Wrappers
  import opened ProcessModel
  import Cap = ProcessCapacity
  import Rec = ProcessRecords
  import Q = ConcurrencyQueue

  class ActiveExecutions {
    const regular: bool
    ghost const limit: nat
    const concurrencyQueue: Q.Queue
    var enabled: bool
    var calls: map<Ticket, Call>
    var executions: seq<Execution>
    var activeExecutions: map<ExecutionId, nat>
    var responseModes: map<ExecutionId, string>
    var issued: nat
    ghost var failed: set<Ticket>
    ghost var released: multiset<Ticket>

    ghost function View(): Process
      reads this, concurrencyQueue
    {
      Process(limit, enabled, concurrencyQueue.View(), calls, executions, activeExecutions, responseModes,
              issued, failed, released)
    }

    /** Map entries point to record objects of their own id. */
    ghost predicate Valid()
      reads this, concurrencyQueue
    {
      Rec.IdsMatch(View())
    }

    constructor (limit: nat, regular: bool)
      ensures View() == Fresh(limit, regular) && this.regular == regular
      ensures Valid() && fresh(concurrencyQueue)
    {
      this.limit, this.regular := limit, regular;
      concurrencyQueue := new Q.Queue(limit);
      enabled, calls, executions, activeExecutions, responseModes, issued := regular, map[], [], map[], map[], 0;
      failed, released := {}, multiset{};
    }

    method BeginAdd(id: ExecutionId, resume: bool, metered: bool) returns (ticket: Ticket)
      modifies this
      ensures View() == Step(old(View()), Begin(id, resume, metered)) && ticket == old(issued)
    {
      ticket := issued;
      calls := calls[ticket := Call(id, resume, metered, Begun)];
      issued := issued + 1;
    }

    method Reserve(ticket: Ticket)
      requires InPhase(View(), ticket, Begun)
      modifies this, concurrencyQueue
      ensures View() == Step(old(View()), Throttle(ticket))
    {
      var phase := Reserved;
      if enabled && calls[ticket].metered {
        var waits := concurrencyQueue.Enqueue(calls[ticket].id, ticket);
        if waits { phase := Throttled; }
      }
      calls := calls[ticket := calls[ticket].(phase := phase)];
    }

    method AdmitCall(ticket: Ticket, updateSucceeded: bool)
      requires InPhase(View(), ticket, Reserved)
      modifies this
      ensures View() == Step(old(View()), Admit(ticket, updateSucceeded))
    {
      calls := calls[ticket := calls[ticket].(phase := if updateSucceeded then Admitted else Refused)];
    }

    method ResumeCalls(resolved: seq<Q.Item>)
      requires |resolved| <= 1
      modifies this`calls
      ensures calls == Resumed(old(calls), resolved)
    {
      if |resolved| == 1 && resolved[0].ticket in calls {
        calls := calls[resolved[0].ticket := calls[resolved[0].ticket].(phase := Reserved)];
      }
    }

    method ReleaseReservation(ticket: Ticket, metered: bool)
      modifies this`calls, this`released, concurrencyQueue
      ensures View() == Released(old(View()), ticket, metered)
    {
      released := released + multiset{ticket};
      if enabled && metered {
        var resolved := concurrencyQueue.Dequeue(ticket);
        ResumeCalls(resolved);
      }
    }

    /** The catch block of `add`. */
    method FailAdd(ticket: Ticket)
      requires InPhase(View(), ticket, Refused)
      modifies this, concurrencyQueue
      ensures View() == Step(old(View()), Abandon(ticket))
    {
      var metered := calls[ticket].metered;
      calls, failed := calls - {ticket}, failed + {ticket};
      ReleaseReservation(ticket, metered);
    }

    /** The part of `add` after its last await. */
    method FinishAdd(ticket: Ticket, now: int)
      requires Valid() && InPhase(View(), ticket, Admitted)
      modifies this
      ensures View() == Step(old(View()), Register(ticket, now))
    {
      var call := calls[ticket];
      var startedAt, responsePromise := now, None;
      if call.id in activeExecutions {
        var resuming := executions[activeExecutions[call.id]];
        startedAt, responsePromise := resuming.startedAt, resuming.responsePromise;
      }
      var execution := Execution(call.id, ticket, call.metered, startedAt, Running, Pending, responsePromise, false);
      activeExecutions := activeExecutions[call.id := |executions|];
      executions := executions + [execution];
      calls := calls - {ticket};
    }

    /** `found` is false when the program throws ExecutionNotFoundError. */
    method SetStatus(id: ExecutionId, status: Status) returns (found: bool)
      requires Valid()
      modifies this`executions
      ensures View() == Step(old(View()), Op.SetStatus(id, status)) && (found <==> id in activeExecutions)
    {
      found := id in activeExecutions;
      if found {
        executions := executions[activeExecutions[id] := executions[activeExecutions[id]].(status := status)];
      }
    }

    method AttachWorkflowExecution(id: ExecutionId) returns (found: bool)
      requires Valid()
      modifies this`executions
      ensures View() == Step(old(View()), AttachExecution(id)) && (found <==> id in activeExecutions)
    {
      found := id in activeExecutions;
      if found {
        executions := executions[activeExecutions[id] := executions[activeExecutions[id]].(attached := true)];
      }
    }

    method AttachResponsePromise(id: ExecutionId, promise: nat) returns (found: bool)
      requires Valid()
      modifies this`executions
      ensures View() == Step(old(View()), AttachResponse(id, promise)) && (found <==> id in activeExecutions)
    {
      found := id in activeExecutions;
      if found {
        var k := activeExecutions[id];
        executions := executions[k := executions[k].(responsePromise := Some(promise))];
      }
    }

    /** The reaction to a settled post-execute promise. It knows its record by identity but deletes by id. */
    method React(k: nat)
      requires k < |executions|
      modifies this, concurrencyQueue
      ensures View() == Reacted(old(View()), k)
    {
      var execution := executions[k];
      executions := executions[k := execution.(attached := execution.attached && execution.status != Waiting)];
      ReleaseReservation(execution.ticket, execution.metered);
      if execution.status != Waiting {
        activeExecutions := activeExecutions - {execution.id};
        responseModes := responseModes - {execution.id};
      }
    }

    /** stopExecution itself; `rejected` is the record whose reaction is still to come. */
    method RequestStop(id: ExecutionId) returns (rejected: Option<nat>)
      requires Valid()
      modifies this`activeExecutions, this`responseModes, this`executions
      ensures View() == Interrupted(old(View()), id) && rejected == Rejects(old(View()), id)
    {
      rejected := None;
      if id !in activeExecutions { return; }
      var k := activeExecutions[id];
      if executions[k].status == Waiting {
        activeExecutions := activeExecutions - {id};
        responseModes := responseModes - {id};
      } else if executions[k].settlement.Pending? {
        executions := executions[k := executions[k].(settlement := Rejected)];
        rejected := Some(k);
      }
    }

    method StopExecution(id: ExecutionId)
      requires Valid()
      modifies this, concurrencyQueue
      ensures View() == Step(old(View()), Stop(id))
    {
      var rejected := RequestStop(id);
      if rejected.Some? {
        React(rejected.value);
      }
    }

    method FinalizeExecution(id: ExecutionId, fullRunData: Option<Status>)
      requires Valid()
      modifies this, concurrencyQueue
      ensures View() == Step(old(View()), Finalize(id, fullRunData))
    {
      if id !in activeExecutions { return; }
      var k := activeExecutions[id];
      if executions[k].settlement.Pending? {
        executions := executions[k := executions[k].(settlement := Resolved(fullRunData))];
        React(k);
      }
    }

    /** ConcurrencyControlService.remove. */
    method RemoveThrottled(id: ExecutionId)
      requires forall i :: 0 <= i < |concurrencyQueue.queue| ==> concurrencyQueue.queue[i].ticket in calls
      modifies this, concurrencyQueue
      ensures View() == Step(old(View()), Drop(id))
    {
      DropShape(View(), id);
      if enabled {
        var removed, resolved := concurrencyQueue.Remove(id);
        if |removed| == 1 {
          calls := calls[removed[0].ticket := calls[removed[0].ticket].(phase := Dropped)];
          ResumeCalls(resolved);
        }
      }
    }

    // -------------------------------------------------------------- shutdown

    /** One iteration of the sweep. Looking up the status never misses: earlier iterations removed no
      * other id than their own. */
    method SweepId(id: ExecutionId, cancel: bool, before: seq<nat>, ghost p: Process, ghost done: set<ExecutionId>)
      returns (rejected: seq<nat>)
      requires Rec.IdsMatch(p) && SweptSoFar(p, done, cancel, View(), before) && id in p.active && id !in done
      modifies this`activeExecutions, this`responseModes, this`executions
      ensures SweptSoFar(p, done + {id}, cancel, View(), rejected) && (!cancel ==> rejected == before)
    {
      SweptValid(p, done, cancel, View());
      ghost var q := View();
      rejected := before;
      var status := executions[activeExecutions[id]].status;
      if cancel {
        var k := RequestStop(id);
        if k.Some? { rejected := rejected + [k.value]; }
        SweepCancels(p, done, q, View(), id, before);
      } else {
        if status == Waiting || status == New {
          activeExecutions := activeExecutions - {id};
        }
        SweepSpares(p, done, q, View(), id);
      }
    }

    /** The synchronous sweep of `shutdown`. `rejected` are the records whose reactions are still to come. */
    method Sweep(cancelAll: bool) returns (toCancel: set<ExecutionId>, rejected: seq<nat>)
      requires Valid()
      modifies this
      ensures enabled == (old(enabled) && !regular)
      ensures toCancel == if regular && cancelAll then old(activeExecutions.Keys) else {}
      ensures SweptSoFar(old(View()), old(activeExecutions.Keys), regular && cancelAll, View(), rejected)
      ensures !(regular && cancelAll) ==> rejected == []
    {
      ghost var p := View();
      if regular { enabled := false; }
      toCancel, rejected := {}, [];
      var cancel := regular && cancelAll;
      var executionIds := activeExecutions.Keys;
      ghost var done := {};
      SweptNothing(p, cancel, View());
      while executionIds != {}
        invariant forall id :: id in p.active <==> id in done || id in executionIds
        invariant forall id :: id in executionIds ==> id !in done
        invariant enabled == (p.enabled && !regular)
        invariant toCancel == if cancel then done else {}
        invariant SweptSoFar(p, done, cancel, View(), rejected) && (!cancel ==> rejected == [])
        decreases |executionIds|
      {
        var id :| id in executionIds;
        rejected := SweepId(id, cancel, rejected, p, done);
        if cancel { toCancel := toCancel + {id}; }
        executionIds, done := executionIds - {id}, done + {id};
      }
      assert done == p.active.Keys;
    }

    method RunReactions(ks: seq<nat>)
      requires forall i :: 0 <= i < |ks| ==> ks[i] < |executions|
      requires Valid()
      modifies this, concurrencyQueue
      ensures Valid() && View() == AllReacted(old(View()), ks)
    {
      ghost var p := View();
      for i := 0 to |ks|
        invariant |executions| == |p.executions|
        invariant View() == AllReacted(p, ks[..i])
      {
        assert ks[..i + 1][..i] == ks[..i];
        React(ks[i]);
      }
      assert ks[..|ks|] == ks;
      ReactionsDelete(p, ks);
    }

    method FinalizeAll(ids: seq<ExecutionId>)
      requires Valid()
      modifies this, concurrencyQueue
      ensures Valid() && View() == AllFinalized(old(View()), ids)
    {
      ghost var p := View();
      for i := 0 to |ids|
        invariant Valid() && View() == AllFinalized(p, ids[..i])
      {
        ghost var q := View();
        FinalizeExecution(ids[i], None);
        FinalizeKeepsIds(q, ids[i]);
        assert ids[..i + 1][..i] == ids[..i];
      }
      assert ids[..|ids|] == ids;
    }

    /** What happens during one sleep: reactions run, and executions finish. */
    method Sleep(reactions: seq<nat>, finishing: seq<ExecutionId>)
      requires Valid() && forall i :: 0 <= i < |reactions| ==> reactions[i] < |executions|
      modifies this, concurrencyQueue
      ensures Valid() && View() == AllFinalized(AllReacted(old(View()), reactions), finishing)
    {
      RunReactions(reactions);
      FinalizeAll(finishing);
    }

    /** The drain loop of `shutdown`. During the first sleep the reactions left over from the sweep run.
      * `finishing` names, sleep by sleep, the executions that finalize meanwhile; nothing is added. Whatever
      * the schedule, no more sleeps than the map has entries find it smaller afterwards. When no reaction is
      * left over and everything in the map runs and finishes, the loop ends, having slept until the last one
      * has finished. */
    method Drain(rejected: seq<nat>, finishing: seq<seq<ExecutionId>>) returns (sleeps: nat)
      requires Valid() && forall i :: 0 <= i < |rejected| ==> rejected[i] < |executions|
      modifies this, concurrencyQueue
      ensures Valid() && sleeps <= |finishing| && (|activeExecutions| == 0 || sleeps == |finishing|)
      ensures View() == Slept(old(View()), rejected, finishing[..sleeps])
      ensures sleeps == 0 <==> |old(activeExecutions)| == 0 || finishing == []
      ensures forall n: nat :: n < sleeps ==> |Slept(old(View()), rejected, finishing[..n]).active| != 0
      ensures Productive(old(View()), rejected, finishing[..sleeps]) + |activeExecutions| <= |old(activeExecutions)|
      ensures rejected == [] && FinishAll(old(View()), Flat(finishing)) ==>
                && |activeExecutions| == 0 && |Flat(finishing[..sleeps])| == |old(activeExecutions)|
                && ((forall i :: 0 <= i < |finishing| ==> finishing[i] != []) ==> sleeps <= |old(activeExecutions)|)
    {
      sleeps := 0;
      ghost var p := View();
      while |activeExecutions| != 0 && sleeps < |finishing|
        invariant Valid() && Draining(p, rejected, finishing, sleeps, View())
        decreases |finishing| - sleeps
      {
        ghost var q := View();
        Sleep(if sleeps == 0 then rejected else [], finishing[sleeps]);
        SleptOnce(p, rejected, finishing, sleeps, q, View());
        sleeps := sleeps + 1;
      }
      DrainEnds(p, rejected, finishing, sleeps, View());
    }

    /** The whole of `shutdown`. By the time it calls removeAll the concurrency control is disabled, so
      * removeAll returns at once and the ids it was given never reach `cancelMany` in the database. When it
      * looks at the map for the first time, the records the sweep has rejected are still there: their
      * reactions run in the first sleep, and with cancelAll that is the only one. Without, the loop ends when
      * the executions that were running at the start have finished. */
    method Shutdown(cancelAll: bool, finishing: seq<seq<ExecutionId>>)
      returns (cancelledInDatabase: set<ExecutionId>, sleeps: nat)
      requires Valid() && (!regular ==> !enabled)
      modifies this, concurrencyQueue
      ensures cancelledInDatabase == {}
      ensures sleeps <= |finishing| && (|activeExecutions| == 0 || sleeps == |finishing|)
      ensures regular && cancelAll && Rec.Consistent(old(View())) && finishing != [] ==>
                && |activeExecutions| == 0 && sleeps == if SomeNotWaiting(old(View())) then 1 else 0
      ensures !(regular && cancelAll) && FinishRunning(old(View()), Flat(finishing)) ==>
                && |activeExecutions| == 0
                && ((forall i :: 0 <= i < |finishing| ==> finishing[i] != []) ==> sleeps <= |old(activeExecutions)|)
    {
      ghost var p := View();
      var toCancel, rejected := Sweep(cancelAll);
      ghost var q := View();
      SweptValid(p, p.active.Keys, regular && cancelAll, q);
      cancelledInDatabase := if enabled then toCancel else {};
      if !(regular && cancelAll) && FinishRunning(p, Flat(finishing)) {
        SparedFinish(p, q, Flat(finishing));
      }
      sleeps := Drain(rejected, finishing);
      if regular && cancelAll && Rec.Consistent(p) && finishing != [] {
        OneSleep(p, q, rejected, finishing, sleeps);
      }
    }
  }

  // ---------------------------------------------------------------- stopping before the reaction

  /** What stopExecution does by itself. */
  ghost function Interrupted(p: Process, id: ExecutionId): Process {
    if !Recorded(p, id) then p
    else if Current(p, id).status == Waiting then Forgotten(p, id)
    else if Current(p, id).settlement.Pending? then Answered(p, p.active[id], Rejected)
    else p
  }

  /** The record it rejects. */
  ghost function Rejects(p: Process, id: ExecutionId): Option<nat> {
    if Recorded(p, id) && Current(p, id).status != Waiting && Current(p, id).settlement.Pending? then Some(p.active[id])
    else None
  }

  lemma DropShape(p: Process, id: ExecutionId)
    requires forall i :: 0 <= i < |p.queue.waiting| ==> p.queue.waiting[i].ticket in p.calls
    ensures var w, i := p.queue.waiting, Q.FirstIndex(p.queue.waiting, id);
            if p.enabled && i < |w| then
              Step(p, Drop(id)) ==
              p.(queue := Q.Removed(p.queue, id),
                 calls := Resumed(p.calls[w[i].ticket := p.calls[w[i].ticket].(phase := Dropped)], w[..i] + w[i + 1..]))
            else Step(p, Drop(id)) == p && (p.enabled ==> Q.Removed(p.queue, id) == p.queue)
  {
  }

  // ---------------------------------------------------------------- what the drain loop waits for

  ghost function AllReacted(p: Process, ks: seq<nat>): (r: Process)
    requires forall i :: 0 <= i < |ks| ==> ks[i] < |p.executions|
    ensures |r.executions| == |p.executions|
    decreases |ks|
  {
    if ks == [] then p else Reacted(AllReacted(p, ks[..|ks| - 1]), ks[|ks| - 1])
  }

  ghost function AllFinalized(p: Process, ids: seq<ExecutionId>): Process
    decreases |ids|
  {
    if ids == [] then p else Step(AllFinalized(p, ids[..|ids| - 1]), Finalize(ids[|ids| - 1], None))
  }

  function Flat(lists: seq<seq<ExecutionId>>): seq<ExecutionId>
    decreases |lists|
  {
    if lists == [] then [] else Flat(lists[..|lists| - 1]) + lists[|lists| - 1]
  }

  /** The process after as many sleeps as `finished` is long. */
  ghost function Slept(p: Process, rejected: seq<nat>, finished: seq<seq<ExecutionId>>): Process
    requires forall i :: 0 <= i < |rejected| ==> rejected[i] < |p.executions|
  {
    if finished == [] then p else AllFinalized(AllReacted(p, rejected), Flat(finished))
  }

  lemma {:induction false} FinalizedOnTop(p: Process, a: seq<ExecutionId>, b: seq<ExecutionId>)
    ensures AllFinalized(p, a + b) == AllFinalized(AllFinalized(p, a), b)
    decreases |b|
  {
    if b == [] {
      assert a + b == a;
    } else {
      var last, rest := b[|b| - 1], b[..|b| - 1];
      FinalizedOnTop(p, a, rest);
      assert (a + b)[..|a + b| - 1] == a + rest;
    }
  }

  lemma OneMoreSleep(p: Process, rejected: seq<nat>, lists: seq<seq<ExecutionId>>, n: nat)
    requires forall i :: 0 <= i < |rejected| ==> rejected[i] < |p.executions|
    requires n < |lists|
    ensures Slept(p, rejected, lists[..n + 1]) ==
            AllFinalized(AllReacted(Slept(p, rejected, lists[..n]), if n == 0 then rejected else []), lists[n])
  {
    var q, now := AllReacted(p, rejected), lists[..n + 1];
    assert now[..n] == lists[..n] && now != [] && now[n] == lists[n];
    FinalizedOnTop(q, Flat(lists[..n]), lists[n]);
    if n == 0 {
      assert lists[..0] == [] && Flat([]) == [];
    }
  }

  /** `r` is the process when the drain loop has slept so many times. */
  ghost predicate Draining(p: Process, rejected: seq<nat>, finishing: seq<seq<ExecutionId>>, sleeps: nat, r: Process)
    requires forall i :: 0 <= i < |rejected| ==> rejected[i] < |p.executions|
  {
    && sleeps <= |finishing| && r == Slept(p, rejected, finishing[..sleeps])
    && (forall n: nat :: n < sleeps ==> |Slept(p, rejected, finishing[..n]).active| != 0)
  }

  lemma SleptOnce(p: Process, rejected: seq<nat>, finishing: seq<seq<ExecutionId>>, sleeps: nat, q: Process, r: Process)
    requires forall i :: 0 <= i < |rejected| ==> rejected[i] < |p.executions|
    requires Draining(p, rejected, finishing, sleeps, q) && sleeps < |finishing| && |q.active| != 0
    requires var now := if sleeps == 0 then rejected else [];
             && (forall i :: 0 <= i < |now| ==> now[i] < |q.executions|)
             && r == AllFinalized(AllReacted(q, now), finishing[sleeps])
    ensures Draining(p, rejected, finishing, sleeps + 1, r)
  {
    OneMoreSleep(p, rejected, finishing, sleeps);
  }

  lemma DrainEnds(p: Process, rejected: seq<nat>, finishing: seq<seq<ExecutionId>>, sleeps: nat, r: Process)
    requires Rec.IdsMatch(p) && forall i :: 0 <= i < |rejected| ==> rejected[i] < |p.executions|
    requires Draining(p, rejected, finishing, sleeps, r) && (|r.active| == 0 || sleeps == |finishing|)
    ensures sleeps == 0 <==> |p.active| == 0 || finishing == []
    ensures Productive(p, rejected, finishing[..sleeps]) + |r.active| <= |p.active|
    ensures rejected == [] && FinishAll(p, Flat(finishing)) ==>
              && |r.active| == 0 && |Flat(finishing[..sleeps])| == |p.active|
              && ((forall i :: 0 <= i < |finishing| ==> finishing[i] != []) ==> sleeps <= |p.active|)
  {
    assert finishing[..0] == [];
    SleepsShrink(p, rejected, finishing[..sleeps]);
    if rejected == [] && FinishAll(p, Flat(finishing)) {
      FinishInTurn(p, finishing, sleeps);
    }
  }

  // ---------------------------------------------------------------- how often the drain loop sleeps

  /** The sleeps after which the map is smaller than before. */
  ghost function Productive(p: Process, rejected: seq<nat>, lists: seq<seq<ExecutionId>>): nat
    requires forall i :: 0 <= i < |rejected| ==> rejected[i] < |p.executions|
    decreases |lists|
  {
    if lists == [] then 0
    else
      var before := lists[..|lists| - 1];
      Productive(p, rejected, before)
      + if |Slept(p, rejected, lists).active| < |Slept(p, rejected, before).active| then 1 else 0
  }

  lemma {:induction false} FinalizedShrinks(p: Process, ids: seq<ExecutionId>)
    requires Rec.IdsMatch(p)
    ensures Rec.IdsMatch(AllFinalized(p, ids)) && AllFinalized(p, ids).active.Keys <= p.active.Keys
    decreases |ids|
  {
    if ids != [] {
      var last, q := ids[|ids| - 1], AllFinalized(p, ids[..|ids| - 1]);
      FinalizedShrinks(p, ids[..|ids| - 1]);
      Rec.StepEffect(q, Finalize(last, None));
      Drained(q, Step(q, Finalize(last, None)), last);
    }
  }

  lemma KeysShrink(p: Process, r: Process)
    requires r.active.Keys <= p.active.Keys
    ensures |r.active| <= |p.active|
  {
    assert p.active.Keys == r.active.Keys + (p.active.Keys - r.active.Keys);
  }

  lemma SleepShrinks(p: Process, reactions: seq<nat>, ids: seq<ExecutionId>)
    requires Rec.IdsMatch(p) && forall i :: 0 <= i < |reactions| ==> reactions[i] < |p.executions|
    ensures var r := AllFinalized(AllReacted(p, reactions), ids);
            Rec.IdsMatch(r) && r.active.Keys <= p.active.Keys && |r.active| <= |p.active|
  {
    ReactionsDelete(p, reactions);
    DeletedShrinks(p, reactions, AllReacted(p, reactions));
    FinalizedShrinks(AllReacted(p, reactions), ids);
    KeysShrink(p, AllFinalized(AllReacted(p, reactions), ids));
  }

  /** The last of some sleeps. */
  lemma LastSleep(p: Process, rejected: seq<nat>, lists: seq<seq<ExecutionId>>)
    requires lists != [] && forall i :: 0 <= i < |rejected| ==> rejected[i] < |p.executions|
    ensures var before := Slept(p, rejected, lists[..|lists| - 1]);
            var now := if |lists| == 1 then rejected else [];
            && (forall i :: 0 <= i < |now| ==> now[i] < |before.executions|)
            && Slept(p, rejected, lists) == AllFinalized(AllReacted(before, now), lists[|lists| - 1])
  {
    var n := |lists| - 1;
    assert lists[..n + 1] == lists;
    assert n == 0 ==> lists[..n] == [];
    OneMoreSleep(p, rejected, lists, n);
  }

  lemma LastShrinks(p: Process, rejected: seq<nat>, lists: seq<seq<ExecutionId>>, before: Process)
    requires lists != [] && forall i :: 0 <= i < |rejected| ==> rejected[i] < |p.executions|
    requires before == Slept(p, rejected, lists[..|lists| - 1]) && Rec.IdsMatch(before)
    ensures Rec.IdsMatch(Slept(p, rejected, lists)) && |Slept(p, rejected, lists).active| <= |before.active|
  {
    LastSleep(p, rejected, lists);
    SleepShrinks(before, if |lists| == 1 then rejected else [], lists[|lists| - 1]);
  }

  /** Nothing is added, so the map only ever shrinks, and can do so no more often than it has entries. */
  lemma {:induction false} SleepsShrink(p: Process, rejected: seq<nat>, lists: seq<seq<ExecutionId>>)
    requires Rec.IdsMatch(p) && forall i :: 0 <= i < |rejected| ==> rejected[i] < |p.executions|
    ensures Rec.IdsMatch(Slept(p, rejected, lists))
    ensures Productive(p, rejected, lists) + |Slept(p, rejected, lists).active| <= |p.active|
    decreases |lists|
  {
    if lists != [] {
      var some := lists[..|lists| - 1];
      SleepsShrink(p, rejected, some);
      LastShrinks(p, rejected, lists, Slept(p, rejected, some));
    }
  }

  lemma DeletedShrinks(p: Process, ks: seq<nat>, r: Process)
    requires Rec.IdsMatch(p) && DeletedAll(p, ks, r)
    ensures Rec.IdsMatch(r) && r.active.Keys <= p.active.Keys
  {
  }

  /** Some of the reactions `ks` belongs to a record of `id` that is not waiting. */
  ghost predicate Deleted(p: Process, ks: seq<nat>, id: ExecutionId) {
    exists i :: 0 <= i < |ks| && ks[i] < |p.executions| && p.executions[ks[i]].id == id
      && p.executions[ks[i]].status != Waiting
  }

  lemma ReactedEffect(p: Process, k: nat)
    requires k < |p.executions|
    ensures var r, e := Reacted(p, k), p.executions[k];
            && r.active == (if e.status == Waiting then p.active else p.active - {e.id})
            && r.executions == p.executions[k := e.(attached := e.attached && e.status != Waiting)]
  {
  }

  /** `r` is what is left when the reactions `ks` have deleted. */
  ghost predicate DeletedAll(p: Process, ks: seq<nat>, r: Process) {
    && |r.executions| == |p.executions|
    && (forall k :: 0 <= k < |p.executions| ==>
          r.executions[k].id == p.executions[k].id && r.executions[k].status == p.executions[k].status)
    && (forall id :: id in r.active <==> id in p.active && !Deleted(p, ks, id))
    && (forall id :: id in r.active ==> r.active[id] == p.active[id])
  }

  lemma OneMoreDeleted(p: Process, ks: seq<nat>, k: nat, id: ExecutionId)
    requires k < |p.executions|
    ensures Deleted(p, ks + [k], id) <==>
            Deleted(p, ks, id) || (p.executions[k].id == id && p.executions[k].status != Waiting)
  {
    var all := ks + [k];
    if Deleted(p, ks, id) {
      var i :| 0 <= i < |ks| && ks[i] < |p.executions| && p.executions[ks[i]].id == id
        && p.executions[ks[i]].status != Waiting;
      assert all[i] == ks[i];
    }
    assert all[|ks|] == k;
  }

  lemma OneMoreReaction(p: Process, ks: seq<nat>, q: Process, k: nat)
    requires k < |p.executions| && DeletedAll(p, ks, q)
    ensures DeletedAll(p, ks + [k], Reacted(q, k))
  {
    ReactedEffect(q, k);
    forall id ensures Deleted(p, ks + [k], id) <==>
                      Deleted(p, ks, id) || (p.executions[k].id == id && p.executions[k].status != Waiting) {
      OneMoreDeleted(p, ks, k, id);
    }
    EffectDeleted(p, ks, q, k, Reacted(q, k));
  }

  lemma EffectDeleted(p: Process, ks: seq<nat>, q: Process, k: nat, r: Process)
    requires k < |p.executions| && DeletedAll(p, ks, q)
    requires var e := q.executions[k];
             && r.active == (if e.status == Waiting then q.active else q.active - {e.id})
             && r.executions == q.executions[k := e.(attached := e.attached && e.status != Waiting)]
    requires forall id :: Deleted(p, ks + [k], id) <==>
                          Deleted(p, ks, id) || (p.executions[k].id == id && p.executions[k].status != Waiting)
    ensures DeletedAll(p, ks + [k], r)
  {
  }

  /** What the reactions leave in the map. */
  lemma {:induction false} ReactionsDelete(p: Process, ks: seq<nat>)
    requires forall i :: 0 <= i < |ks| ==> ks[i] < |p.executions|
    ensures DeletedAll(p, ks, AllReacted(p, ks))
    decreases |ks|
  {
    if ks != [] {
      var rest, k := ks[..|ks| - 1], ks[|ks| - 1];
      ReactionsDelete(p, rest);
      OneMoreReaction(p, rest, AllReacted(p, rest), k);
      assert ks == rest + [k];
    }
  }

  lemma FinalizeKeepsIds(p: Process, id: ExecutionId)
    requires Rec.IdsMatch(p)
    ensures Rec.IdsMatch(Step(p, Finalize(id, None)))
  {
    Rec.StepEffect(p, Finalize(id, None));
    Drained(p, Step(p, Finalize(id, None)), id);
  }

  lemma Drained(p: Process, r: Process, id: ExecutionId)
    requires Rec.IdsMatch(p) && Rec.SettlingEffect(p, Finalize(id, None), r)
    ensures Rec.IdsMatch(r) && |r.executions| == |p.executions|
    ensures Finalizable(p, id) ==> r.active == p.active - {id}
    ensures r.active.Keys <= p.active.Keys
    ensures forall other :: other != id && other in p.active ==>
            other in r.active && Current(r, other) == Current(p, other)
  {
    assert |r.executions| == |p.executions|;
    assert forall k :: 0 <= k < |p.executions| ==> r.executions[k].id == p.executions[k].id;
  }

  /** Finalizing the execution removes its record. */
  ghost predicate Finalizable(p: Process, id: ExecutionId)
    requires Rec.IdsMatch(p)
  {
    id in p.active && Current(p, id).settlement.Pending? && Current(p, id).status != Waiting
  }

  ghost predicate Distinct(ids: seq<ExecutionId>) {
    forall i, j :: 0 <= i < j < |ids| ==> ids[i] != ids[j]
  }

  /** Everything in the map is running and finishes, one execution after the other. */
  ghost predicate FinishAll(p: Process, ids: seq<ExecutionId>)
    requires Rec.IdsMatch(p)
  {
    && Distinct(ids) && (forall i :: 0 <= i < |ids| ==> Finalizable(p, ids[i]))
    && (forall id :: id in p.active ==> id in ids)
  }

  /** With no further adds, the map shrinks by one with every running execution that finalizes: the drain
    * loop ends once they all have, unless a record that is waiting or new came after the sweep. */
  lemma {:induction false} DrainShrinks(p: Process, ids: seq<ExecutionId>)
    requires Rec.IdsMatch(p) && Distinct(ids) && forall i :: 0 <= i < |ids| ==> Finalizable(p, ids[i])
    ensures var r := AllFinalized(p, ids);
            && Rec.IdsMatch(r)
            && |r.active| + |ids| == |p.active|
            && r.active.Keys <= p.active.Keys && (forall id :: id in ids ==> id !in r.active)
            && (forall id :: id in p.active && id !in ids ==> id in r.active && Current(r, id) == Current(p, id))
    decreases |ids|
  {
    if ids != [] {
      var last, rest := ids[|ids| - 1], ids[..|ids| - 1];
      assert ids == rest + [last];
      DrainShrinks(p, rest);
      var q := AllFinalized(p, rest);
      assert last !in rest && Finalizable(q, last);
      Rec.StepEffect(q, Finalize(last, None));
      Drained(q, Step(q, Finalize(last, None)), last);
      OneMoreGone(p, rest, q, last, Step(q, Finalize(last, None)));
    }
  }

  lemma OneMoreGone(p: Process, rest: seq<ExecutionId>, q: Process, last: ExecutionId, r: Process)
    requires last in q.active && r.active == q.active - {last}
    requires q.active.Keys <= p.active.Keys && forall id :: id in rest ==> id !in q.active
    ensures |r.active| == |q.active| - 1 && r.active.Keys <= p.active.Keys
    ensures forall id :: id in rest + [last] ==> id !in r.active
  {
    assert r.active.Keys == q.active.Keys - {last};
  }

  lemma {:induction false} FlatPrefix(lists: seq<seq<ExecutionId>>, n: nat)
    requires n <= |lists|
    ensures |Flat(lists[..n])| <= |Flat(lists)| && Flat(lists[..n]) == Flat(lists)[..|Flat(lists[..n])|]
    ensures (forall i :: 0 <= i < |lists| ==> lists[i] != []) ==> n <= |Flat(lists[..n])|
    decreases |lists|
  {
    if n == |lists| {
      assert lists[..n] == lists;
      if n > 0 {
        FlatPrefix(lists[..n - 1], n - 1);
        assert lists[..n - 1][..n - 1] == lists[..n - 1];
      }
    } else {
      FlatPrefix(lists[..|lists| - 1], n);
      assert lists[..|lists| - 1][..n] == lists[..n];
    }
  }

  /** When all finish, the loop goes on until the last one has. */
  lemma FinishInTurn(p: Process, lists: seq<seq<ExecutionId>>, sleeps: nat)
    requires Rec.IdsMatch(p) && FinishAll(p, Flat(lists)) && sleeps <= |lists|
    requires |Slept(p, [], lists[..sleeps]).active| == 0 || sleeps == |lists|
    ensures |Slept(p, [], lists[..sleeps]).active| == 0 && |Flat(lists[..sleeps])| == |p.active|
    ensures (forall i :: 0 <= i < |lists| ==> lists[i] != []) ==> sleeps <= |p.active|
  {
    FlatPrefix(lists, sleeps);
    FinishEmpties(p, Flat(lists));
    DrainShrinks(p, Flat(lists[..sleeps]));
    assert sleeps == |lists| ==> lists[..sleeps] == lists;
    SleptPlain(p, lists[..sleeps]);
  }

  lemma FinishEmpties(p: Process, ids: seq<ExecutionId>)
    requires Rec.IdsMatch(p) && FinishAll(p, ids)
    ensures |ids| == |p.active|
  {
    DrainShrinks(p, ids);
    assert AllFinalized(p, ids).active == map[];
  }

  lemma SleptPlain(p: Process, lists: seq<seq<ExecutionId>>)
    ensures Slept(p, [], lists) == AllFinalized(p, Flat(lists))
  {
  }

  /** The executions that are neither waiting nor new are running, and they all finish. */
  ghost predicate FinishRunning(p: Process, ids: seq<ExecutionId>)
    requires Rec.IdsMatch(p)
  {
    && Distinct(ids)
    && (forall i :: 0 <= i < |ids| ==> Finalizable(p, ids[i]) && Current(p, ids[i]).status != New)
    && (forall id :: id in p.active && Current(p, id).status != Waiting && Current(p, id).status != New ==> id in ids)
  }

  /** A sweep that spares the running executions leaves exactly them. */
  lemma SparedFinish(p: Process, r: Process, ids: seq<ExecutionId>)
    requires Rec.IdsMatch(p) && Swept(p, p.active.Keys, false, r) && FinishRunning(p, ids)
    ensures Rec.IdsMatch(r) && FinishAll(r, ids) && |r.active| <= |p.active|
  {
    SweptValid(p, p.active.Keys, false, r);
    KeysShrink(p, r);
  }

  // ---------------------------------------------------------------- what the sweep leaves

  /** The sweep takes the id out of the map at once. */
  ghost predicate GoesAway(p: Process, id: ExecutionId, cancel: bool)
    requires Recorded(p, id)
  {
    Current(p, id).status == Waiting || (!cancel && Current(p, id).status == New)
  }

  /** The sweep rejects the promise of record `k`. */
  ghost predicate GetsRejected(p: Process, k: nat, done: set<ExecutionId>, cancel: bool)
    requires k < |p.executions|
  {
    var e := p.executions[k];
    cancel && e.id in done && Rec.Mapped(p, e.id, k) && e.status != Waiting && e.settlement.Pending?
  }

  ghost predicate ListsRejected(p: Process, done: set<ExecutionId>, cancel: bool, ks: seq<nat>) {
    && (forall i :: 0 <= i < |ks| ==> ks[i] < |p.executions|)
    && (forall k: nat :: k < |p.executions| ==> (k in ks <==> GetsRejected(p, k, done, cancel)))
    && (forall i, j :: 0 <= i < j < |ks| ==> ks[i] != ks[j])
  }

  /** `r` is what the sweep has made of `p` after dealing with the ids in `done`. */
  ghost predicate Swept(p: Process, done: set<ExecutionId>, cancel: bool, r: Process)
    requires Rec.IdsMatch(p)
  {
    && |r.executions| == |p.executions|
    && (forall id :: id in r.active <==> id in p.active && !(id in done && GoesAway(p, id, cancel)))
    && (forall id :: id in r.active ==> r.active[id] == p.active[id])
    && (forall k :: 0 <= k < |p.executions| ==>
          r.executions[k] ==
          if GetsRejected(p, k, done, cancel) then p.executions[k].(settlement := Rejected) else p.executions[k])
    && (forall id :: id in r.responseModes <==>
          id in p.responseModes && !(cancel && id in done && id in p.active && Current(p, id).status == Waiting))
    && (forall id :: id in r.responseModes ==> r.responseModes[id] == p.responseModes[id])
    && SameCapacity(p, r)
  }

  /** Nothing has changed but records, map and response modes. */
  ghost predicate SameCapacity(p: Process, r: Process) {
    && r.calls == p.calls && r.queue == p.queue && r.issued == p.issued
    && r.failed == p.failed && r.released == p.released
  }

  ghost predicate SweptSoFar(p: Process, done: set<ExecutionId>, cancel: bool, r: Process, rejected: seq<nat>)
    requires Rec.IdsMatch(p)
  {
    Swept(p, done, cancel, r) && ListsRejected(p, done, cancel, rejected)
  }

  lemma SweptNothing(p: Process, cancel: bool, r: Process)
    requires Rec.IdsMatch(p) && r.active == p.active && r.executions == p.executions
    requires r.responseModes == p.responseModes && SameCapacity(p, r)
    ensures SweptSoFar(p, {}, cancel, r, [])
  {
  }

  lemma SweptValid(p: Process, done: set<ExecutionId>, cancel: bool, r: Process)
    requires Rec.IdsMatch(p) && Swept(p, done, cancel, r)
    ensures Rec.IdsMatch(r)
  {
    assert forall k :: 0 <= k < |p.executions| ==> r.executions[k].id == p.executions[k].id;
  }

  lemma InterruptedEffect(q: Process, id: ExecutionId)
    requires Rec.IdsMatch(q) && id in q.active
    ensures var e, r := Current(q, id), Interrupted(q, id);
            && r.active == (if e.status == Waiting then q.active - {id} else q.active)
            && r.responseModes == (if e.status == Waiting then q.responseModes - {id} else q.responseModes)
            && r.executions == (if e.status != Waiting && e.settlement.Pending?
                                then q.executions[q.active[id] := e.(settlement := Rejected)] else q.executions)
            && SameCapacity(q, r)
  {
  }

  lemma SweepCancels(p: Process, done: set<ExecutionId>, q: Process, r: Process, id: ExecutionId, ks: seq<nat>)
    requires Rec.IdsMatch(p) && SweptSoFar(p, done, true, q, ks) && id in p.active && id !in done
    requires Rec.IdsMatch(q) && r == Interrupted(q, id)
    ensures var k := Rejects(q, id); SweptSoFar(p, done + {id}, true, r, if k.Some? then ks + [k.value] else ks)
  {
    assert !GetsRejected(p, p.active[id], done, true);
    assert id in q.active && Current(q, id) == Current(p, id);
    InterruptedEffect(q, id);
    CancelEffect(p, done, q, r, id);
    OneMoreListed(p, done, ks, id);
  }

  lemma CancelEffect(p: Process, done: set<ExecutionId>, q: Process, r: Process, id: ExecutionId)
    requires Rec.IdsMatch(p) && Swept(p, done, true, q) && id in p.active && id !in done
    requires Recorded(q, id) && Current(q, id) == Current(p, id)
    requires var e := Current(q, id);
             && r.active == (if e.status == Waiting then q.active - {id} else q.active)
             && r.executions == (if e.status != Waiting && e.settlement.Pending?
                                 then q.executions[q.active[id] := e.(settlement := Rejected)] else q.executions)
    requires r.responseModes ==
             if Current(q, id).status == Waiting then q.responseModes - {id} else q.responseModes
    requires SameCapacity(q, r)
    ensures Swept(p, done + {id}, true, r)
  {
    var k := p.active[id];
    forall j | 0 <= j < |p.executions|
      ensures r.executions[j] ==
              if GetsRejected(p, j, done + {id}, true)
              then p.executions[j].(settlement := Rejected) else p.executions[j]
    {
      if j != k {
        assert GetsRejected(p, j, done + {id}, true) <==> GetsRejected(p, j, done, true);
        assert r.executions[j] == q.executions[j];
      }
    }
  }

  lemma OneMoreListed(p: Process, done: set<ExecutionId>, ks: seq<nat>, id: ExecutionId)
    requires Rec.IdsMatch(p) && ListsRejected(p, done, true, ks) && id in p.active && id !in done
    ensures var k := Rejects(p, id); ListsRejected(p, done + {id}, true, if k.Some? then ks + [k.value] else ks)
  {
    var k := p.active[id];
    assert p.executions[k].id == id && !GetsRejected(p, k, done, true) && k !in ks;
    forall j: nat | j < |p.executions|
      ensures GetsRejected(p, j, done + {id}, true) <==> GetsRejected(p, j, done, true) || Rejects(p, id) == Some(j)
    {
    }
    if Rejects(p, id).Some? {
      forall j: nat ensures j in ks + [k] <==> j in ks || j == k {
      }
    }
  }

  lemma SweepSpares(p: Process, done: set<ExecutionId>, q: Process, r: Process, id: ExecutionId)
    requires Rec.IdsMatch(p) && Swept(p, done, false, q) && id in p.active && id !in done
    requires Recorded(q, id) && r.executions == q.executions
    requires r.active ==
             if Current(q, id).status == Waiting || Current(q, id).status == New then q.active - {id} else q.active
    requires r.responseModes == q.responseModes && SameCapacity(q, r)
    ensures Swept(p, done + {id}, false, r)
  {
  }

  /** Cancelling everything takes each execution of a consistent map out at once or settles it for removal:
    * its promise is rejected, its reaction is to come, and that will delete it. */
  lemma SweepSettlesAll(p: Process, r: Process, rejected: seq<nat>, id: ExecutionId)
    requires Rec.Consistent(p) && SweptSoFar(p, p.active.Keys, true, r, rejected)
    requires id in p.active
    ensures id in r.active <==> Current(p, id).status != Waiting
    ensures id in r.active ==>
              && Current(r, id).settlement == Rejected && Current(r, id).status != Waiting
              && r.active[id] in rejected && Deleted(r, rejected, id)
  {
    var k := p.active[id];
    if Current(p, id).status != Waiting {
      assert GetsRejected(p, k, p.active.Keys, true);
      var i :| 0 <= i < |rejected| && rejected[i] == k;
      assert r.executions[k].id == id;
    }
  }

  /** Once the reactions have run, nothing is left in the map. */
  lemma SweepEmpties(p: Process, r: Process, rejected: seq<nat>)
    requires Rec.Consistent(p) && SweptSoFar(p, p.active.Keys, true, r, rejected)
    ensures AllReacted(r, rejected).active == map[]
  {
    SweptValid(p, p.active.Keys, true, r);
    ReactionsDelete(r, rejected);
    forall id | id in p.active ensures id !in AllReacted(r, rejected).active {
      SweepSettlesAll(p, r, rejected, id);
    }
  }

  /** Finalizing what is not in the map changes nothing. */
  lemma {:induction false} NothingToFinalize(p: Process, ids: seq<ExecutionId>)
    requires p.active == map[]
    ensures AllFinalized(p, ids) == p
    decreases |ids|
  {
    if ids != [] {
      NothingToFinalize(p, ids[..|ids| - 1]);
    }
  }

  ghost predicate SomeNotWaiting(p: Process) {
    exists id :: Recorded(p, id) && Current(p, id).status != Waiting
  }

  lemma OneSleep(p: Process, r: Process, rejected: seq<nat>, finishing: seq<seq<ExecutionId>>, sleeps: nat)
    requires Rec.Consistent(p) && SweptSoFar(p, p.active.Keys, true, r, rejected)
    requires finishing != [] && sleeps <= |finishing| && (sleeps == 0 <==> |r.active| == 0)
    requires forall n: nat :: n < sleeps ==> |Slept(r, rejected, finishing[..n]).active| != 0
    ensures |Slept(r, rejected, finishing[..sleeps]).active| == 0
    ensures sleeps == if SomeNotWaiting(p) then 1 else 0
  {
    SweepEmpties(p, r, rejected);
    var q := AllReacted(r, rejected);
    if sleeps > 0 {
      NothingToFinalize(q, Flat(finishing[..1]));
      NothingToFinalize(q, Flat(finishing[..sleeps]));
      assert |Slept(r, rejected, finishing[..1]).active| == 0;
      var id :| id in r.active;
      assert id in p.active && Current(p, id).status != Waiting;
    } else {
      forall id | id in p.active ensures Current(p, id).status == Waiting {
        SweepSettlesAll(p, r, rejected, id);
      }
    }
  }
}
