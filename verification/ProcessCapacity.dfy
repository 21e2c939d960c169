/** Conservation of capacity by every step of a process, and over all its runs. */
module ProcessCapacity {
  import opened ProcessModel
  import Q = ConcurrencyQueue

  // ---------------------------------------------------------------- numbering and single release

  ghost predicate Numbered(p: Process) {
    WellNumbered(p) && ReleasedOnce(p)
  }

  /** Records keep their tickets and ids, and calls may only end: the numbering stays good. */
  lemma KeepNumbering(p: Process, r: Process)
    requires WellNumbered(p)
    requires r.issued == p.issued && r.calls.Keys <= p.calls.Keys
    requires r.failed <= p.failed + (p.calls.Keys - r.calls.Keys)
    requires |r.executions| == |p.executions|
    requires forall k :: 0 <= k < |p.executions| ==>
      r.executions[k].ticket == p.executions[k].ticket && r.executions[k].id == p.executions[k].id
    requires forall id :: id in r.active ==> id in p.active && r.active[id] == p.active[id]
    ensures WellNumbered(r)
  {
  }

  lemma ReleasedEffect(p: Process, t: Ticket, metered: bool)
    ensures var r := Released(p, t, metered);
            && r == p.(queue := r.queue, calls := r.calls, released := p.released + multiset{t})
            && r.calls.Keys == p.calls.Keys
  {
  }

  /** Record `k` of `p` settled and reacted to, with nothing else done yet. */
  ghost function Closed(p: Process, k: nat, how: Settlement): Process
    requires k < |p.executions|
  {
    var e := p.executions[k];
    p.(executions := p.executions[k := e.(settlement := how, attached := e.attached && e.status != Waiting)])
  }

  lemma SettledForm(p: Process, k: nat, how: Settlement)
    requires k < |p.executions|
    ensures var e := p.executions[k];
            var q := Released(Closed(p, k, how), e.ticket, e.metered);
            Settled(p, k, how) == if e.status == Waiting then q else Forgotten(q, e.id)
  {
    var e := p.executions[k];
    var a := e.(settlement := how);
    assert p.executions[k := a][k := a.(attached := e.attached && e.status != Waiting)] == Closed(p, k, how).executions;
  }

  /** What settling changes, apart from the queue and the phases of the calls. */
  lemma SettledEffect(p: Process, k: nat, how: Settlement)
    requires k < |p.executions|
    ensures var r, e := Settled(p, k, how), p.executions[k];
            && r.executions == p.executions[k := e.(settlement := how, attached := e.attached && e.status != Waiting)]
            && r.released == p.released + multiset{e.ticket}
            && r.calls.Keys == p.calls.Keys && r.failed == p.failed && r.issued == p.issued
            && r.active == (if e.status == Waiting then p.active else p.active - {e.id})
            && r.responseModes == (if e.status == Waiting then p.responseModes else p.responseModes - {e.id})
            && r.enabled == p.enabled && r.limit == p.limit
  {
    SettledForm(p, k, how);
    ReleasedEffect(Closed(p, k, how), p.executions[k].ticket, p.executions[k].metered);
  }

  lemma SettleNumbers(p: Process, k: nat, how: Settlement)
    requires Numbered(p) && k < |p.executions| && p.executions[k].settlement.Pending? && !how.Pending?
    ensures Numbered(Settled(p, k, how))
  {
    SettledEffect(p, k, how);
    SettledRelease(p, Settled(p, k, how), k);
  }

  lemma SettledRelease(p: Process, r: Process, k: nat)
    requires Numbered(p) && k < |p.executions| && p.executions[k].settlement.Pending?
    requires r.released == p.released + multiset{p.executions[k].ticket}
    requires r.calls.Keys == p.calls.Keys && r.failed == p.failed && r.issued == p.issued
    requires |r.executions| == |p.executions| && !r.executions[k].settlement.Pending?
    requires forall j :: 0 <= j < |p.executions| ==>
      r.executions[j].ticket == p.executions[j].ticket && r.executions[j].id == p.executions[j].id
    requires forall j :: 0 <= j < |p.executions| && j != k ==> r.executions[j] == p.executions[j]
    requires forall id :: id in r.active ==> id in p.active && r.active[id] == p.active[id]
    ensures Numbered(r)
  {
    KeepNumbering(p, r);
    forall j | 0 <= j < |r.executions|
      ensures r.released[r.executions[j].ticket] == if r.executions[j].settlement.Pending? then 0 else 1
    {
      assert j != k ==> p.executions[j].ticket != p.executions[k].ticket;
    }
    forall t | t !in r.failed && !HasRecord(r, t) ensures r.released[t] == 0 {
      SameHasRecord(p, r, t);
      assert r.executions[k].ticket != t;
    }
  }

  lemma SameHasRecord(p: Process, r: Process, t: Ticket)
    requires |r.executions| == |p.executions|
    requires forall k :: 0 <= k < |p.executions| ==> r.executions[k].ticket == p.executions[k].ticket
    ensures HasRecord(r, t) <==> HasRecord(p, t)
  {
    if HasRecord(p, t) {
      var k :| 0 <= k < |p.executions| && p.executions[k].ticket == t;
      assert r.executions[k].ticket == t;
    }
  }

  lemma AbandonNumbers(p: Process, t: Ticket)
    requires Numbered(p) && InPhase(p, t, Refused)
    ensures Numbered(Step(p, Abandon(t)))
  {
    ReleasedEffect(Leaving(p, t), t, p.calls[t].metered);
    AbandonedRelease(p, Step(p, Abandon(t)), t);
  }

  lemma AbandonedRelease(p: Process, r: Process, t: Ticket)
    requires Numbered(p) && t in p.calls
    requires r.calls.Keys == p.calls.Keys - {t} && r.failed == p.failed + {t} && r.issued == p.issued
    requires r.released == p.released + multiset{t}
    requires r.executions == p.executions && r.active == p.active
    ensures Numbered(r)
  {
    KeepNumbering(p, r);
    assert !HasRecord(p, t);
    forall u | u !in r.failed && !HasRecord(r, u) ensures r.released[u] == 0 { SameHasRecord(p, r, u); }
  }

  /** `r` has the tickets, ids and settlements of `p`, and no new map entry. */
  ghost predicate SameRecords(p: Process, r: Process) {
    && r.issued == p.issued && r.calls.Keys == p.calls.Keys && r.failed == p.failed && r.released == p.released
    && |r.executions| == |p.executions|
    && (forall k :: 0 <= k < |p.executions| ==>
          var e, f := p.executions[k], r.executions[k];
          f.ticket == e.ticket && f.id == e.id && f.metered == e.metered && f.settlement == e.settlement)
    && (forall id :: id in r.active ==> id in p.active && r.active[id] == p.active[id])
  }

  predicate Settles(op: Op) {
    op.Finalize? || op.Stop?
  }

  predicate IsUpdate(op: Op) {
    op.SetStatus? || op.AttachExecution? || op.AttachResponse?
  }

  lemma UpdateSameRecords(p: Process, op: Op)
    requires IsUpdate(op)
    ensures SameRecords(p, Step(p, op))
  {
  }

  lemma OtherSameRecords(p: Process, op: Op)
    requires Possible(p, op) && !op.Begin? && !op.Abandon? && !op.Register? && !Settles(op) && !IsUpdate(op)
    ensures SameRecords(p, Step(p, op))
  {
  }

  lemma StepSameRecords(p: Process, op: Op)
    requires Possible(p, op) && !op.Begin? && !op.Abandon? && !op.Register? && !Settles(op)
    ensures SameRecords(p, Step(p, op))
  {
    if IsUpdate(op) {
      UpdateSameRecords(p, op);
    } else {
      OtherSameRecords(p, op);
    }
  }

  lemma UpdateNumbers(p: Process, r: Process)
    requires Numbered(p) && SameRecords(p, r)
    ensures Numbered(r)
  {
    KeepNumbering(p, r);
    assert forall k :: 0 <= k < |r.executions| ==> p.executions[k].ticket == r.executions[k].ticket;
    forall t | t !in r.failed && !HasRecord(r, t) ensures r.released[t] == 0 { SameHasRecord(p, r, t); }
  }

  lemma BeginNumbers(p: Process, op: Op)
    requires Numbered(p) && op.Begin?
    ensures Numbered(Step(p, op))
  {
    forall t ensures HasRecord(Step(p, op), t) <==> HasRecord(p, t) { SameHasRecord(p, Step(p, op), t); }
  }

  ghost predicate Appended(p: Process, r: Process, t: Ticket, e: Execution) {
    && t in p.calls && e.ticket == t && e.settlement.Pending?
    && r.calls == p.calls - {t} && r.failed == p.failed && r.issued == p.issued && r.released == p.released
    && r.executions == p.executions + [e] && r.active == p.active[e.id := |p.executions|]
  }

  lemma AppendedNumbering(p: Process, r: Process, t: Ticket, e: Execution)
    requires WellNumbered(p) && Appended(p, r, t, e)
    ensures WellNumbered(r)
  {
    assert forall k :: 0 <= k < |p.executions| ==> r.executions[k] == p.executions[k];
  }

  lemma AppendedReleases(p: Process, r: Process, t: Ticket, e: Execution)
    requires Numbered(p) && Appended(p, r, t, e)
    ensures ReleasedOnce(r)
  {
    var n := |p.executions|;
    assert forall k :: 0 <= k < n ==> r.executions[k] == p.executions[k];
    assert r.executions[n].ticket == t && !HasRecord(p, t) && p.released[t] == 0;
    forall u | HasRecord(p, u) ensures HasRecord(r, u) {
      var k :| 0 <= k < n && p.executions[k].ticket == u;
      assert r.executions[k].ticket == u;
    }
  }

  lemma RegisterNumbers(p: Process, t: Ticket, now: int)
    requires Numbered(p) && InPhase(p, t, Admitted)
    ensures Numbered(Step(p, Register(t, now)))
  {
    var e := NewRecord(p, t, now);
    AppendedNumbering(p, Step(p, Register(t, now)), t, e);
    AppendedReleases(p, Step(p, Register(t, now)), t, e);
  }

  lemma SettlingNumbers(p: Process, op: Op)
    requires Numbered(p) && Settles(op)
    ensures Numbered(Step(p, op))
  {
    if Recorded(p, op.id) {
      var settles := Current(p, op.id).settlement.Pending? && (op.Stop? ==> Current(p, op.id).status != Waiting);
      if settles {
        SettleNumbers(p, p.active[op.id], if op.Stop? then Rejected else Resolved(op.run));
      } else {
        UpdateNumbers(p, Step(p, op));
      }
    }
  }

  lemma StepNumbers(p: Process, op: Op)
    requires Numbered(p) && Possible(p, op)
    ensures Numbered(Step(p, op))
  {
    if op.Begin? {
      BeginNumbers(p, op);
    } else if op.Abandon? {
      AbandonNumbers(p, op.ticket);
    } else if op.Register? {
      RegisterNumbers(p, op.ticket, op.now);
    } else if Settles(op) {
      SettlingNumbers(p, op);
    } else {
      StepSameRecords(p, op);
      UpdateNumbers(p, Step(p, op));
    }
  }

  // ---------------------------------------------------------------- slots

  /** A change that moves no ticket between holding, queueing and neither keeps the account. */
  lemma SameSlots(p: Process, r: Process)
    requires SlotsAccounted(p)
    requires r.enabled == p.enabled && r.limit == p.limit && r.queue == p.queue
    requires forall u :: HoldsSlot(r, u) <==> HoldsSlot(p, u)
    requires forall u :: InPhase(r, u, Throttled) <==> InPhase(p, u, Throttled)
    requires forall u :: InPhase(r, u, Throttled) ==> u in p.calls && r.calls[u].metered == p.calls[u].metered
    ensures SlotsAccounted(r)
  {
    assert forall u :: Queued(r, u) <==> Queued(p, u);
  }

  /** What is owed to the queue when ticket `t` has stopped holding its slot but not given it back. */
  ghost predicate SlotsOwing(p: Process, t: Ticket, metered: bool) {
    && Q.Conserved(p.queue, p.limit)
    && !HoldsSlot(p, t)
    && (forall u :: u in p.queue.granted <==> HoldsSlot(p, u) || (metered && u == t))
    && (forall i :: 0 <= i < |p.queue.waiting| ==>
          InPhase(p, p.queue.waiting[i].ticket, Throttled) && p.calls[p.queue.waiting[i].ticket].metered)
    && (forall u :: InPhase(p, u, Throttled) ==> Queued(p, u))
  }

  /** Resuming the head of the queue turns a throttled call into a holder. */
  lemma ResumeHead(p: Process, r: Process, u: Ticket)
    requires p.queue.waiting != [] && var h := p.queue.waiting[0].ticket; InPhase(p, h, Throttled) && p.calls[h].metered
    requires r.executions == p.executions && r.calls == Resumed(p.calls, p.queue.waiting)
    ensures HoldsSlot(r, u) <==> HoldsSlot(p, u) || u == p.queue.waiting[0].ticket
    ensures InPhase(r, u, Throttled) <==> InPhase(p, u, Throttled) && u != p.queue.waiting[0].ticket
    ensures InPhase(r, u, Throttled) ==> r.calls[u] == p.calls[u]
  {
    assert forall k: nat :: PendingOf(r, k, u) <==> PendingOf(p, k, u);
  }

  /** Resuming the head of the queue moves it from the waiting calls to the holders. */
  lemma ResumeSlots(p: Process)
    requires SlotsAccounted(p) && p.enabled
    ensures SlotsAccounted(HeadResumed(p))
  {
    var r := HeadResumed(p);
    var w := p.queue.waiting;
    Q.ResolveNextConserves(p.queue, p.limit);
    if w == [] {
      assert r == p;
    } else {
      forall u ensures u in r.queue.granted <==> HoldsSlot(r, u) { ResumeHead(p, r, u); }
      forall u | InPhase(r, u, Throttled) ensures Queued(r, u) {
        ResumeHead(p, r, u);
        var i :| 0 <= i < |w| && w[i].ticket == u;
        assert r.queue.waiting[i - 1].ticket == u;
      }
      forall i | 0 <= i < |r.queue.waiting|
        ensures InPhase(r, r.queue.waiting[i].ticket, Throttled) && r.calls[r.queue.waiting[i].ticket].metered
      {
        assert r.queue.waiting[i] == w[i + 1];
        ResumeHead(p, r, w[i + 1].ticket);
      }
    }
  }

  ghost function GivenBack(p: Process, t: Ticket): Process {
    p.(released := p.released + multiset{t},
       queue := p.queue.(capacity := p.queue.capacity + 1, granted := p.queue.granted - {t}))
  }

  lemma GivenBackSlots(p: Process, t: Ticket)
    requires p.enabled && SlotsOwing(p, t, true)
    ensures SlotsAccounted(GivenBack(p, t))
  {
    var q := GivenBack(p, t);
    SameHolders(p, q);
    forall u | InPhase(q, u, Throttled) ensures Queued(q, u) {
      assert Queued(p, u);
    }
    assert |q.queue.granted| == |p.queue.granted| - 1;
  }

  lemma ReleaseSlots(p: Process, t: Ticket, metered: bool)
    requires p.enabled && SlotsOwing(p, t, metered)
    ensures SlotsAccounted(Released(p, t, metered))
  {
    if metered {
      GivenBackSlots(p, t);
      ResumeSlots(GivenBack(p, t));
      assert Released(p, t, metered) == HeadResumed(GivenBack(p, t));
    } else {
      var q := p.(released := p.released + multiset{t});
      SameHolders(p, q);
      SameSlots(p, q);
    }
  }

  lemma AbandonSlots(p: Process, t: Ticket)
    requires WellNumbered(p) && SlotsAccounted(p) && InPhase(p, t, Refused)
    ensures SlotsAccounted(Step(p, Abandon(t)))
  {
    if p.enabled {
      var q := Leaving(p, t);
      forall u ensures HoldsSlot(q, u) <==> HoldsSlot(p, u) && u != t {
        assert forall k: nat :: PendingOf(q, k, u) <==> PendingOf(p, k, u);
      }
      assert CallHolds(p, t);
      assert forall u :: InPhase(q, u, Throttled) <==> InPhase(p, u, Throttled);
      assert forall u :: Queued(p, u) ==> Queued(q, u);
      ReleaseSlots(q, t, p.calls[t].metered);
    }
  }

  lemma SettleOwes(p: Process, k: nat, how: Settlement)
    requires WellNumbered(p) && SlotsAccounted(p) && k < |p.executions| && p.executions[k].settlement.Pending?
             && !how.Pending?
    requires p.enabled
    ensures SlotsOwing(Closed(p, k, how), p.executions[k].ticket, p.executions[k].metered)
  {
    var e, q := p.executions[k], Closed(p, k, how);
    forall u ensures HoldsSlot(q, u) <==> HoldsSlot(p, u) && u != e.ticket {
      SettleHolders(p, q, k, how, u);
    }
    assert PendingOf(p, k, e.ticket);
    assert forall u :: InPhase(q, u, Throttled) <==> InPhase(p, u, Throttled);
    assert forall u :: Queued(p, u) ==> Queued(q, u);
  }

  lemma ForgetSlots(p: Process, id: ExecutionId)
    requires SlotsAccounted(p)
    ensures SlotsAccounted(Forgotten(p, id))
  {
    SameHolders(p, Forgotten(p, id));
    SameSlots(p, Forgotten(p, id));
  }

  lemma SettleSlots(p: Process, k: nat, how: Settlement)
    requires WellNumbered(p) && SlotsAccounted(p) && k < |p.executions| && p.executions[k].settlement.Pending?
             && !how.Pending?
    ensures SlotsAccounted(Settled(p, k, how))
  {
    var e := p.executions[k];
    SettledForm(p, k, how);
    if p.enabled {
      SettleOwes(p, k, how);
      ReleaseSlots(Closed(p, k, how), e.ticket, e.metered);
      ForgetSlots(Released(Closed(p, k, how), e.ticket, e.metered), e.id);
    }
  }

  lemma SettleHolders(p: Process, q: Process, k: nat, how: Settlement, u: Ticket)
    requires WellNumbered(p) && k < |p.executions| && p.executions[k].settlement.Pending? && !how.Pending?
    requires q.calls == p.calls
    requires exists attached ::
      q.executions == p.executions[k := p.executions[k].(settlement := how, attached := attached)]
    ensures HoldsSlot(q, u) <==> HoldsSlot(p, u) && u != p.executions[k].ticket
  {
    assert forall j: nat :: PendingOf(q, j, u) <==> PendingOf(p, j, u) && j != k;
    assert forall j: nat :: PendingOf(p, j, u) && u == p.executions[k].ticket ==> j == k;
  }

  /** Calls and the tickets, metering and settlement of records decide who holds a slot. */
  lemma SameHolders(p: Process, r: Process)
    requires r.calls == p.calls && |r.executions| == |p.executions|
    requires forall k :: 0 <= k < |p.executions| ==>
      r.executions[k].ticket == p.executions[k].ticket && r.executions[k].metered == p.executions[k].metered
      && r.executions[k].settlement == p.executions[k].settlement
    ensures forall u :: HoldsSlot(r, u) <==> HoldsSlot(p, u)
    ensures forall u :: InPhase(r, u, Throttled) <==> InPhase(p, u, Throttled)
  {
    assert forall u, k: nat :: PendingOf(r, k, u) <==> PendingOf(p, k, u);
  }

  lemma UpdateSlots(p: Process, r: Process)
    requires SlotsAccounted(p) && SameRecords(p, r)
    requires r.enabled == p.enabled && r.limit == p.limit && r.queue == p.queue && r.calls == p.calls
    ensures SlotsAccounted(r)
  {
    SameHolders(p, r);
    SameSlots(p, r);
  }

  lemma BeginSlots(p: Process, op: Op)
    requires WellNumbered(p) && SlotsAccounted(p) && op.Begin?
    ensures SlotsAccounted(Step(p, op))
  {
    var r := Step(p, op);
    forall u ensures HoldsSlot(r, u) <==> HoldsSlot(p, u) {
      assert forall k: nat :: PendingOf(r, k, u) <==> PendingOf(p, k, u);
    }
    SameSlots(p, r);
  }

  lemma AdmitSlots(p: Process, t: Ticket, won: bool)
    requires WellNumbered(p) && SlotsAccounted(p) && InPhase(p, t, Reserved)
    ensures SlotsAccounted(Step(p, Admit(t, won)))
  {
    var r := Step(p, Admit(t, won));
    forall u ensures HoldsSlot(r, u) <==> HoldsSlot(p, u) {
      assert forall k: nat :: PendingOf(r, k, u) <==> PendingOf(p, k, u);
    }
    SameSlots(p, r);
  }

  lemma RegisterSlots(p: Process, t: Ticket, now: int)
    requires WellNumbered(p) && SlotsAccounted(p) && InPhase(p, t, Admitted)
    ensures SlotsAccounted(Step(p, Register(t, now)))
  {
    var r := Step(p, Register(t, now));
    var n := |p.executions|;
    assert PendingOf(r, n, t) && r.executions[n].metered == p.calls[t].metered;
    forall u ensures HoldsSlot(r, u) <==> HoldsSlot(p, u) {
      assert forall k: nat :: PendingOf(r, k, u) <==> PendingOf(p, k, u) || (k == n && u == t);
      assert forall k: nat :: k < n ==> r.executions[k] == p.executions[k];
      assert forall k: nat :: !PendingOf(p, k, t);
    }
    SameSlots(p, r);
  }

  lemma ThrottleSlots(p: Process, t: Ticket)
    requires WellNumbered(p) && SlotsAccounted(p) && InPhase(p, t, Begun)
    ensures SlotsAccounted(Step(p, Throttle(t)))
  {
    var r := Step(p, Throttle(t));
    if p.enabled {
      assert !HoldsSlot(p, t);
      var full := p.calls[t].metered && p.queue.capacity - 1 < 0;
      forall u ensures HoldsSlot(r, u) <==> HoldsSlot(p, u) || (p.calls[t].metered && !full && u == t) {
        assert forall k: nat :: PendingOf(r, k, u) <==> PendingOf(p, k, u);
      }
      assert forall u :: InPhase(r, u, Throttled) <==> InPhase(p, u, Throttled) || (full && u == t);
      if p.calls[t].metered {
        Q.EnqueueConserves(p.queue, Q.Item(p.calls[t].id, t), p.limit);
        forall u | InPhase(r, u, Throttled) ensures Queued(r, u) {
          if u == t {
            assert r.queue.waiting[|p.queue.waiting|].ticket == t;
          } else {
            var i :| 0 <= i < |p.queue.waiting| && p.queue.waiting[i].ticket == u;
            assert r.queue.waiting[i].ticket == u;
          }
        }
      } else {
        SameSlots(p, r);
      }
    }
  }

  lemma DropSlots(p: Process, id: ExecutionId)
    requires WellNumbered(p) && SlotsAccounted(p)
    ensures SlotsAccounted(Step(p, Drop(id)))
  {
    var w := p.queue.waiting;
    var i := Q.FirstIndex(w, id);
    if p.enabled && i < |w| {
      var q := WithoutWaiter(p, i);
      Q.SpliceConserves(p.queue, i, p.limit);
      SpliceSlots(p, q, i);
      ResumeSlots(q);
    }
  }

  /** Taking a waiting call out of the queue, before anyone is resumed. */
  lemma SpliceSlots(p: Process, q: Process, i: nat)
    requires WellNumbered(p) && SlotsAccounted(p) && p.enabled && i < |p.queue.waiting|
    requires InPhase(p, p.queue.waiting[i].ticket, Throttled) && q == WithoutWaiter(p, i)
    requires Q.Conserved(q.queue, p.limit)
    ensures SlotsAccounted(q)
  {
    var w, rest := p.queue.waiting, q.queue.waiting;
    var t := w[i].ticket;
    assert forall j :: 0 <= j < |rest| ==> rest[j] == w[if j < i then j else j + 1];
    forall u ensures HoldsSlot(q, u) <==> HoldsSlot(p, u) {
      assert forall k: nat :: PendingOf(q, k, u) <==> PendingOf(p, k, u);
    }
    forall u | InPhase(q, u, Throttled) ensures Queued(q, u) {
      assert InPhase(p, u, Throttled) && u != t;
      var j :| 0 <= j < |w| && w[j].ticket == u;
      assert rest[if j < i then j else j - 1].ticket == u;
    }
  }

  lemma SettlingSlots(p: Process, op: Op)
    requires WellNumbered(p) && SlotsAccounted(p) && Settles(op)
    ensures SlotsAccounted(Step(p, op))
  {
    if Recorded(p, op.id) {
      var settles := Current(p, op.id).settlement.Pending? && (op.Stop? ==> Current(p, op.id).status != Waiting);
      if settles {
        SettleSlots(p, p.active[op.id], if op.Stop? then Rejected else Resolved(op.run));
      } else {
        UpdateSlots(p, Step(p, op));
      }
    }
  }

  lemma CallSlots(p: Process, op: Op)
    requires WellNumbered(p) && SlotsAccounted(p) && Possible(p, op)
    requires op.Begin? || op.Throttle? || op.Admit? || op.Abandon? || op.Register? || op.Drop?
    ensures SlotsAccounted(Step(p, op))
  {
    match op
    case Begin(_, _, _) => BeginSlots(p, op);
    case Throttle(t) => ThrottleSlots(p, t);
    case Admit(t, won) => AdmitSlots(p, t, won);
    case Abandon(t) => AbandonSlots(p, t);
    case Register(t, now) => RegisterSlots(p, t, now);
    case Drop(id) => DropSlots(p, id);
  }

  lemma StepSlots(p: Process, op: Op)
    requires WellNumbered(p) && SlotsAccounted(p) && Possible(p, op)
    ensures SlotsAccounted(Step(p, op))
  {
    if Settles(op) {
      SettlingSlots(p, op);
    } else if op.SetStatus? || op.AttachExecution? || op.AttachResponse? || op.SetResponseMode? {
      StepSameRecords(p, op);
      UpdateSlots(p, Step(p, op));
    } else if !op.Disable? {
      CallSlots(p, op);
    }
  }

  // ---------------------------------------------------------------- runs

  /** Every step keeps the account of the reservations, in whatever order the steps come. */
  lemma StepAccounts(p: Process, op: Op)
    requires Accounted(p) && Possible(p, op)
    ensures Accounted(Step(p, op))
  {
    StepNumbers(p, op);
    StepSlots(p, op);
  }

  ghost predicate PossibleRun(p: Process, ops: seq<Op>)
    decreases |ops|
  {
    ops == [] || (Possible(p, ops[0]) && PossibleRun(Step(p, ops[0]), ops[1..]))
  }

  ghost function After(p: Process, ops: seq<Op>): Process
    requires PossibleRun(p, ops)
    decreases |ops|
  {
    if ops == [] then p else After(Step(p, ops[0]), ops[1..])
  }

  lemma Prepend(p: Process, op: Op, ops: seq<Op>)
    requires Possible(p, op) && PossibleRun(Step(p, op), ops)
    ensures PossibleRun(p, [op] + ops) && After(p, [op] + ops) == After(Step(p, op), ops)
  {
    assert ([op] + ops)[1..] == ops;
  }

  lemma {:induction false} Extend(p: Process, ops: seq<Op>, op: Op)
    requires PossibleRun(p, ops) && Possible(After(p, ops), op)
    ensures PossibleRun(p, ops + [op]) && After(p, ops + [op]) == Step(After(p, ops), op)
    decreases |ops|
  {
    if ops == [] {
      Prepend(p, op, []);
      assert [] + [op] == [op] + [];
    } else {
      Extend(Step(p, ops[0]), ops[1..], op);
      assert (ops + [op])[1..] == ops[1..] + [op];
    }
  }

  lemma {:induction false} RunAccounts(p: Process, ops: seq<Op>)
    requires Accounted(p) && PossibleRun(p, ops)
    ensures Accounted(After(p, ops))
    decreases |ops|
  {
    if ops != [] {
      StepAccounts(p, ops[0]);
      RunAccounts(Step(p, ops[0]), ops[1..]);
    }
  }

  /** The metered `add` calls that have reserved and not finished. */
  ghost function HoldingCalls(p: Process): set<Ticket> {
    set t | t in p.calls && CallHolds(p, t) && p.calls[t].metered
  }

  /** The metered records whose promise has not settled, by registration index. */
  ghost function UnsettledRecords(p: Process): set<nat> {
    set k: nat | k < |p.executions| && p.executions[k].metered && p.executions[k].settlement.Pending?
  }

  ghost predicate TicketAmong(p: Process, ks: set<nat>, t: Ticket)
    requires forall k :: k in ks ==> k < |p.executions|
  {
    exists k :: k in ks && p.executions[k].ticket == t
  }

  /** Records have different tickets, so the tickets of some records are as many as the records. */
  lemma {:induction false} TicketsOf(p: Process, ks: set<nat>) returns (ts: set<Ticket>)
    requires WellNumbered(p) && forall k :: k in ks ==> k < |p.executions|
    ensures |ts| == |ks|
    ensures forall t :: t in ts <==> TicketAmong(p, ks, t)
    decreases |ks|
  {
    if ks == {} {
      ts := {};
    } else {
      var k :| k in ks;
      var rest := TicketsOf(p, ks - {k});
      ts := rest + {p.executions[k].ticket};
      assert !TicketAmong(p, ks - {k}, p.executions[k].ticket);
      forall t ensures t in ts <==> TicketAmong(p, ks, t) {
        if TicketAmong(p, ks, t) && t != p.executions[k].ticket {
          var j :| j in ks && p.executions[j].ticket == t;
          assert j in ks - {k};
        }
        assert k in ks;
      }
    }
  }

  lemma HoldersSplit(p: Process, t: Ticket)
    requires WellNumbered(p)
    ensures HoldsSlot(p, t) <==> t in HoldingCalls(p) || TicketAmong(p, UnsettledRecords(p), t)
    ensures !(t in HoldingCalls(p) && TicketAmong(p, UnsettledRecords(p), t))
  {
    if exists k: nat :: PendingOf(p, k, t) && p.executions[k].metered {
      var k: nat :| PendingOf(p, k, t) && p.executions[k].metered;
      assert k in UnsettledRecords(p);
    }
    if TicketAmong(p, UnsettledRecords(p), t) {
      var k :| k in UnsettledRecords(p) && p.executions[k].ticket == t;
      assert PendingOf(p, k, t);
    }
  }

  lemma GrantedCounted(p: Process)
    requires WellNumbered(p) && SlotsAccounted(p) && p.enabled
    ensures |p.queue.granted| == |HoldingCalls(p)| + |UnsettledRecords(p)|
  {
    var ts := TicketsOf(p, UnsettledRecords(p));
    SplitCounted(p.queue.granted, HoldingCalls(p), ts) by {
      forall t ensures t in p.queue.granted <==> t in HoldingCalls(p) || t in ts
        ensures !(t in HoldingCalls(p) && t in ts)
      {
        HoldersSplit(p, t);
      }
    }
  }

  lemma SplitCounted(all: set<Ticket>, a: set<Ticket>, b: set<Ticket>)
    requires forall t :: t in all <==> t in a || t in b
    requires forall t :: !(t in a && t in b)
    ensures |all| == |a| + |b|
  {
    assert all == a + b && a !! b;
  }

  /** Over every run before `disable`, the capacity taken is exactly the reserved unfinished calls, the
    * unsettled records and the callers in the queue. */
  lemma CapacityConserved(limit: nat, ops: seq<Op>)
    requires PossibleRun(Fresh(limit, true), ops)
    ensures var p := After(Fresh(limit, true), ops);
            p.enabled ==> limit - p.queue.capacity == |HoldingCalls(p)| + |UnsettledRecords(p)| + |p.queue.waiting|
  {
    var p := After(Fresh(limit, true), ops);
    FreshAccounted(limit, true);
    RunAccounts(Fresh(limit, true), ops);
    LimitFixed(Fresh(limit, true), ops);
    if p.enabled {
      GrantedCounted(p);
    }
  }

  lemma FreshAccounted(limit: nat, enabled: bool)
    ensures Accounted(Fresh(limit, enabled))
  {
  }

  /** Over every run, a reservation is released at most once: when its call has failed or its record has
    * settled, never on both paths, and never while either is still under way. */
  lemma ReleasedExactlyOnce(limit: nat, ops: seq<Op>, t: Ticket)
    requires PossibleRun(Fresh(limit, true), ops)
    ensures var p := After(Fresh(limit, true), ops);
            && p.released[t] == (if t in p.failed || exists k: nat :: SettledOf(p, k, t) then 1 else 0)
            && !(t in p.failed && exists k: nat :: SettledOf(p, k, t))
  {
    var p := After(Fresh(limit, true), ops);
    FreshAccounted(limit, true);
    RunAccounts(Fresh(limit, true), ops);
    if t !in p.failed && HasRecord(p, t) {
      var k :| 0 <= k < |p.executions| && p.executions[k].ticket == t;
      assert SettledOf(p, k, t) <==> !p.executions[k].settlement.Pending?;
    }
  }

  /** Nobody waits while a slot is free. */
  ghost predicate NoIdleWait(p: Process) {
    p.queue.waiting != [] ==> |p.queue.waiting| <= -p.queue.capacity
  }

  lemma ReleasedNoIdleWait(p: Process, t: Ticket, metered: bool)
    requires NoIdleWait(p)
    ensures NoIdleWait(Released(p, t, metered))
  {
  }

  lemma StepNoIdleWait(p: Process, op: Op)
    requires NoIdleWait(p) && Possible(p, op)
    ensures NoIdleWait(Step(p, op))
  {
    if Settles(op) && Recorded(p, op.id) {
      var e, k := Current(p, op.id), p.active[op.id];
      var how := if op.Stop? then Rejected else Resolved(op.run);
      SettledForm(p, k, how);
      ReleasedNoIdleWait(Closed(p, k, how), e.ticket, e.metered);
    }
  }

  lemma {:induction false} RunNoIdleWait(p: Process, ops: seq<Op>)
    requires NoIdleWait(p) && PossibleRun(p, ops)
    ensures NoIdleWait(After(p, ops))
    decreases |ops|
  {
    if ops != [] {
      StepNoIdleWait(p, ops[0]);
      RunNoIdleWait(Step(p, ops[0]), ops[1..]);
    }
  }

  lemma {:induction false} LimitFixed(p: Process, ops: seq<Op>)
    requires PossibleRun(p, ops)
    ensures After(p, ops).limit == p.limit
    decreases |ops|
  {
    if ops != [] {
      LimitFixed(Step(p, ops[0]), ops[1..]);
    }
  }
}
