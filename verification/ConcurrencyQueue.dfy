/** The throttling queue behind ConcurrencyControlService: a signed capacity counter and a FIFO of
  * suspended callers. A negative capacity counts the callers that had to wait. */
module ConcurrencyQueue {

  /** Names one call of `enqueue`; the program identifies it by the promise it returns. */
  type Ticket = nat

  datatype Item = Item(executionId: string, ticket: Ticket)

  /** `granted` is history: the tickets that were let through and have not given their slot back. */
  datatype State = State(capacity: int, waiting: seq<Item>, granted: set<Ticket>)

  ghost function Empty(limit: nat): State {
    State(limit, [], {})
  }

  ghost function NextResolved(s: State): State {
    if s.waiting == [] then s
    else s.(waiting := s.waiting[1..], granted := s.granted + {s.waiting[0].ticket})
  }

  ghost function Enqueued(s: State, item: Item): State {
    if s.capacity - 1 < 0
    then s.(capacity := s.capacity - 1, waiting := s.waiting + [item])
    else s.(capacity := s.capacity - 1, granted := s.granted + {item.ticket})
  }

  ghost function Dequeued(s: State, t: Ticket): State {
    NextResolved(s.(capacity := s.capacity + 1, granted := s.granted - {t}))
  }

  /** Index of the first waiting item of an execution, or the queue length. */
  function FirstIndex(q: seq<Item>, executionId: string): (i: nat)
    ensures i <= |q|
    ensures i < |q| ==> q[i].executionId == executionId
    ensures forall j :: 0 <= j < i ==> q[j].executionId != executionId
  {
    if q == [] then 0
    else if q[0].executionId == executionId then 0
    else 1 + FirstIndex(q[1..], executionId)
  }

  ghost function Removed(s: State, executionId: string): State {
    var i := FirstIndex(s.waiting, executionId);
    if i == |s.waiting| then s
    else NextResolved(s.(capacity := s.capacity + 1, waiting := s.waiting[..i] + s.waiting[i + 1..]))
  }

  ghost predicate Unambiguous(s: State) {
    && (forall i, j :: 0 <= i < j < |s.waiting| ==> s.waiting[i].ticket != s.waiting[j].ticket)
    && (forall i :: 0 <= i < |s.waiting| ==> s.waiting[i].ticket !in s.granted)
  }

  /** Every unit of capacity taken from the limit is a slot in use or a suspended caller. */
  ghost predicate Conserved(s: State, limit: nat) {
    Unambiguous(s) && limit - s.capacity == |s.granted| + |s.waiting|
  }

  /** The purpose of the queue: no more than `limit` in use, and nobody waits while a slot is free. */
  ghost predicate Tight(s: State, limit: nat) {
    |s.granted| <= limit && (s.waiting != [] ==> |s.granted| == limit)
  }

  class Queue {
    var capacity: int
    var queue: seq<Item>
    ghost var granted: set<Ticket>

    ghost function View(): State
      reads this
    {
      State(capacity, queue, granted)
    }

    constructor (capacity: nat)
      ensures View() == Empty(capacity)
    {
      this.capacity, queue, granted := capacity, [], {};
    }

    /** `waits` says that the returned promise stays pending. */
    method Enqueue(executionId: string, ticket: Ticket) returns (waits: bool)
      modifies this
      ensures View() == Enqueued(old(View()), Item(executionId, ticket))
      ensures waits <==> old(capacity) <= 0
    {
      capacity := capacity - 1;
      waits := capacity < 0;
      if waits {
        queue := queue + [Item(executionId, ticket)];
      } else {
        granted := granted + {ticket};
      }
    }

    method Dequeue(ghost ticket: Ticket) returns (resolved: seq<Item>)
      modifies this
      ensures View() == Dequeued(old(View()), ticket)
      ensures resolved == old(queue)[..if |old(queue)| == 0 then 0 else 1]
    {
      capacity := capacity + 1;
      granted := granted - {ticket};
      resolved := ResolveNext();
    }

    method Remove(executionId: string) returns (removed: seq<Item>, resolved: seq<Item>)
      modifies this
      ensures View() == Removed(old(View()), executionId)
      ensures removed == [] <==> forall i :: 0 <= i < |old(queue)| ==> old(queue)[i].executionId != executionId
      ensures removed != [] ==>
                var i := FirstIndex(old(queue), executionId);
                i < |old(queue)| && removed == [old(queue)[i]]
                && var rest := old(queue)[..i] + old(queue)[i + 1..];
                resolved == rest[..if |rest| == 0 then 0 else 1]
    {
      removed, resolved := [], [];
      var index := FirstIndex(queue, executionId);
      if index < |queue| {
        removed := [queue[index]];
        queue := queue[..index] + queue[index + 1..];
        capacity := capacity + 1;
        resolved := ResolveNext();
      }
    }

    method ResolveNext() returns (resolved: seq<Item>)
      modifies this
      ensures View() == NextResolved(old(View()))
      ensures resolved == old(queue)[..if |old(queue)| == 0 then 0 else 1]
    {
      resolved := [];
      if |queue| > 0 {
        resolved := [queue[0]];
        granted := granted + {queue[0].ticket};
        queue := queue[1..];
      }
    }
  }

  datatype Op = Enqueue(item: Item) | Dequeue(ticket: Ticket) | Remove(executionId: string)

  /** A ticket is used once, and only a slot in use is given back. */
  ghost predicate Legal(s: State, op: Op) {
    match op
    case Enqueue(item) => item.ticket !in s.granted
      && (forall i :: 0 <= i < |s.waiting| ==> s.waiting[i].ticket != item.ticket)
    case Dequeue(t) => t in s.granted
    case Remove(_) => true
  }

  ghost function Apply(s: State, op: Op): State {
    match op
    case Enqueue(item) => Enqueued(s, item)
    case Dequeue(t) => Dequeued(s, t)
    case Remove(id) => Removed(s, id)
  }

  /** Removing a suspended caller while another one waits resumes the other one without a free slot. */
  ghost predicate Overtakes(s: State, op: Op) {
    op.Remove? && |s.waiting| >= 2 && exists i :: 0 <= i < |s.waiting| && s.waiting[i].executionId == op.executionId
  }

  lemma ResolveNextConserves(s: State, limit: nat)
    requires Conserved(s, limit)
    ensures Conserved(NextResolved(s), limit)
    ensures s.waiting != [] ==> |NextResolved(s).granted| == |s.granted| + 1
  {
  }

  lemma SpliceConserves(s: State, i: nat, limit: nat)
    requires Conserved(s, limit) && i < |s.waiting|
    ensures Conserved(s.(capacity := s.capacity + 1, waiting := s.waiting[..i] + s.waiting[i + 1..]), limit)
  {
    var w := s.waiting[..i] + s.waiting[i + 1..];
    assert forall j :: 0 <= j < |w| ==> w[j] == s.waiting[if j < i then j else j + 1];
  }

  lemma EnqueueConserves(s: State, item: Item, limit: nat)
    requires Conserved(s, limit) && Legal(s, Op.Enqueue(item))
    ensures Conserved(Enqueued(s, item), limit)
  {
  }

  lemma DequeueConserves(s: State, t: Ticket, limit: nat)
    requires Conserved(s, limit) && t in s.granted
    ensures Conserved(Dequeued(s, t), limit)
  {
    ResolveNextConserves(s.(capacity := s.capacity + 1, granted := s.granted - {t}), limit);
  }

  lemma RemoveConserves(s: State, id: string, limit: nat)
    requires Conserved(s, limit)
    ensures Conserved(Removed(s, id), limit)
  {
    var i := FirstIndex(s.waiting, id);
    if i < |s.waiting| {
      SpliceConserves(s, i, limit);
      ResolveNextConserves(s.(capacity := s.capacity + 1, waiting := s.waiting[..i] + s.waiting[i + 1..]), limit);
    }
  }

  lemma StepConserves(s: State, op: Op, limit: nat)
    requires Conserved(s, limit) && Legal(s, op)
    ensures Conserved(Apply(s, op), limit)
  {
    match op
    case Enqueue(item) => EnqueueConserves(s, item, limit);
    case Dequeue(t) => DequeueConserves(s, t, limit);
    case Remove(id) => RemoveConserves(s, id, limit);
  }

  /** One step keeps the queue tight exactly when it is not an overtaking removal. */
  lemma StepTight(s: State, op: Op, limit: nat)
    requires Conserved(s, limit) && Legal(s, op) && Tight(s, limit)
    ensures Tight(Apply(s, op), limit) <==> !Overtakes(s, op)
  {
    match op
    case Enqueue(item) =>
    case Dequeue(t) =>
      ResolveNextConserves(s.(capacity := s.capacity + 1, granted := s.granted - {t}), limit);
    case Remove(id) =>
      var i := FirstIndex(s.waiting, id);
      if i < |s.waiting| {
        var q := s.(capacity := s.capacity + 1, waiting := s.waiting[..i] + s.waiting[i + 1..]);
        SpliceConserves(s, i, limit);
        ResolveNextConserves(q, limit);
        assert s.waiting[i].executionId == id;
      }
  }

  ghost predicate LegalRun(s: State, ops: seq<Op>)
    decreases |ops|
  {
    ops == [] || (Legal(s, ops[0]) && LegalRun(Apply(s, ops[0]), ops[1..]))
  }

  ghost predicate AlwaysTight(s: State, ops: seq<Op>, limit: nat)
    decreases |ops|
  {
    Tight(s, limit) && (ops != [] ==> AlwaysTight(Apply(s, ops[0]), ops[1..], limit))
  }

  ghost predicate NeverOvertakes(s: State, ops: seq<Op>)
    decreases |ops|
  {
    ops != [] ==> !Overtakes(s, ops[0]) && NeverOvertakes(Apply(s, ops[0]), ops[1..])
  }

  /** A run from a tight queue respects the limit throughout exactly when no removal overtakes. */
  lemma {:induction false} WithinLimitIff(s: State, ops: seq<Op>, limit: nat)
    requires Conserved(s, limit) && Tight(s, limit) && LegalRun(s, ops)
    ensures AlwaysTight(s, ops, limit) <==> NeverOvertakes(s, ops)
    decreases |ops|
  {
    if ops != [] {
      StepConserves(s, ops[0], limit);
      StepTight(s, ops[0], limit);
      if Tight(Apply(s, ops[0]), limit) {
        WithinLimitIff(Apply(s, ops[0]), ops[1..], limit);
      }
    }
  }

  ghost function After(s: State, ops: seq<Op>): State
    decreases |ops|
  {
    if ops == [] then s else After(Apply(s, ops[0]), ops[1..])
  }

  /** Capacity is conserved by every run, overtaking or not. */
  lemma {:induction false} RunConserves(s: State, ops: seq<Op>, limit: nat)
    requires Conserved(s, limit) && LegalRun(s, ops)
    ensures Conserved(After(s, ops), limit)
    decreases |ops|
  {
    if ops != [] {
      StepConserves(s, ops[0], limit);
      RunConserves(Apply(s, ops[0]), ops[1..], limit);
    }
  }

  /** Limit 1: three callers, the second is cancelled while it waits, and the third runs beside the first. */
  lemma RemoveOverAdmits()
    ensures
      var ops := [Op.Enqueue(Item("a", 0)), Op.Enqueue(Item("b", 1)), Op.Enqueue(Item("c", 2)), Op.Remove("b")];
      LegalRun(Empty(1), ops) && After(Empty(1), ops).granted == {0, 2}
  {
    var a, b, c := Item("a", 0), Item("b", 1), Item("c", 2);
    var s1 := Apply(Empty(1), Op.Enqueue(a));
    var s2 := Apply(s1, Op.Enqueue(b));
    var s3 := Apply(s2, Op.Enqueue(c));
    assert s3 == State(-2, [b, c], {0});
    assert b.executionId != a.executionId;
    assert FirstIndex([b, c], "b") == 0;
    assert [b, c][..0] + [b, c][1..] == [c];
    var s4 := Apply(s3, Op.Remove("b"));
    assert s4.granted == {0, 2};
    var ops := [Op.Enqueue(a), Op.Enqueue(b), Op.Enqueue(c), Op.Remove("b")];
    assert ops[1..] == [Op.Enqueue(b), Op.Enqueue(c), Op.Remove("b")];
    assert ops[1..][1..] == [Op.Enqueue(c), Op.Remove("b")];
    assert ops[1..][1..][1..] == [Op.Remove("b")];
    assert ops[1..][1..][1..][1..] == [];
    assert LegalRun(s4, []) && After(s4, []) == s4;
    assert LegalRun(s3, [Op.Remove("b")]) && After(s3, [Op.Remove("b")]) == s4;
  }
}
