/** The part of a process that reservations move, its calls and its queue, and what it would be had one
  * metered call never gone on: which moves of the others come to the same with and without that call. */
module ReservationDesk {
  import opened Wrappers
  import opened ProcessModel
  import Q = ConcurrencyQueue

  datatype Desk = Desk(calls: map<Ticket, Call>, queue: Q.State)

  ghost function DeskOf(p: Process): Desk {
    Desk(p.calls, p.queue)
  }

  ghost predicate IsIn(d: Desk, t: Ticket, phase: Phase) {
    t in d.calls && d.calls[t].phase == phase
  }

  ghost predicate Holds(d: Desk, t: Ticket) {
    IsIn(d, t, Reserved) || IsIn(d, t, Refused)
  }

  ghost predicate Waits(w: seq<Q.Item>, t: Ticket) {
    exists i :: 0 <= i < |w| && w[i].ticket == t
  }

  // ---------------------------------------------------------------- moves

  /** The head of the queue is let through. */
  ghost function HeadAt(d: Desk): Desk {
    Desk(Resumed(d.calls, d.queue.waiting), Q.NextResolved(d.queue))
  }

  ghost function Freed(d: Desk, t: Ticket): Desk {
    d.(queue := d.queue.(capacity := d.queue.capacity + 1, granted := d.queue.granted - {t}))
  }

  /** A metered reservation is given back. */
  ghost function GivenBackAt(d: Desk, t: Ticket): Desk {
    HeadAt(Freed(d, t))
  }

  /** A metered call asks for a slot. */
  ghost function AskedAt(d: Desk, t: Ticket): Desk
    requires t in d.calls
  {
    Desk(d.calls[t := d.calls[t].(phase := if d.queue.capacity - 1 < 0 then Throttled else Reserved)],
         Q.Enqueued(d.queue, Q.Item(d.calls[t].id, t)))
  }

  function Cut(w: seq<Q.Item>, i: nat): seq<Q.Item>
    requires i < |w|
  {
    w[..i] + w[i + 1..]
  }

  /** The waiter at `i` is cancelled. */
  ghost function CutAt(d: Desk, i: nat): Desk
    requires i < |d.queue.waiting| && d.queue.waiting[i].ticket in d.calls
  {
    var t := d.queue.waiting[i].ticket;
    Desk(d.calls[t := d.calls[t].(phase := Dropped)],
         d.queue.(capacity := d.queue.capacity + 1, waiting := Cut(d.queue.waiting, i)))
  }

  ghost function DroppedAt(d: Desk, id: ExecutionId): Desk {
    var i := Q.FirstIndex(d.queue.waiting, id);
    if i < |d.queue.waiting| && d.queue.waiting[i].ticket in d.calls then HeadAt(CutAt(d, i)) else d
  }

  /** A call that neither waits nor will wait changes. */
  ghost function Changed(d: Desk, u: Ticket, x: Option<Call>): Desk {
    d.(calls := if x.Some? then d.calls[u := x.value] else d.calls - {u})
  }

  // ---------------------------------------------------------------- undoing one call

  ghost function Without(w: seq<Q.Item>, t: Ticket): (r: seq<Q.Item>) {
    if w == [] then [] else (if w[0].ticket == t then [] else [w[0]]) + Without(w[1..], t)
  }

  ghost function Reset(d: Desk, t: Ticket, c: Call): Desk {
    d.(calls := d.calls[t := c])
  }

  /** Calls and queue as they would be had the metered call `t`, begun as `c`, never gone on: its place in
    * the queue goes, or its slot goes to the head. */
  ghost function UndoneAt(d: Desk, t: Ticket, c: Call): Desk {
    var e := Reset(d, t, c);
    if IsIn(d, t, Throttled) then
      e.(queue := d.queue.(capacity := d.queue.capacity + 1, waiting := Without(d.queue.waiting, t)))
    else if Holds(d, t) then GivenBackAt(e, t)
    else e
  }

  /** The queue holds throttled calls, each once, and `t` is in it exactly while it is throttled. */
  ghost predicate Lined(d: Desk, t: Ticket) {
    && (forall i :: 0 <= i < |d.queue.waiting| ==> IsIn(d, d.queue.waiting[i].ticket, Throttled))
    && (forall i, j :: 0 <= i < j < |d.queue.waiting| ==> d.queue.waiting[i].ticket != d.queue.waiting[j].ticket)
    && (IsIn(d, t, Throttled) ==> Waits(d.queue.waiting, t))
    && (!Holds(d, t) ==> t !in d.queue.granted)
  }

  /** Nobody waits while a slot is free. */
  predicate Short(q: Q.State) {
    q.waiting != [] ==> |q.waiting| <= -q.capacity
  }

  // ---------------------------------------------------------------- queues without one ticket

  lemma {:induction false} WithoutNone(w: seq<Q.Item>, t: Ticket)
    requires !Waits(w, t)
    ensures Without(w, t) == w
    decreases |w|
  {
    if w != [] {
      var rest := w[1..];
      assert w[0].ticket != t && w == [w[0]] + rest;
      forall i | 0 <= i < |rest| ensures rest[i].ticket != t {
        assert rest[i] == w[i + 1];
      }
      WithoutNone(rest, t);
    }
  }

  lemma WithoutStep(x: Q.Item, rest: seq<Q.Item>, t: Ticket)
    ensures Without([x] + rest, t) == (if x.ticket == t then [] else [x]) + Without(rest, t)
  {
    assert ([x] + rest)[1..] == rest;
  }

  lemma {:induction false} WithoutOneMore(w: seq<Q.Item>, x: Q.Item, t: Ticket)
    ensures Without(w + [x], t) == Without(w, t) + (if x.ticket == t then [] else [x])
    decreases |w|
  {
    if w == [] {
      WithoutStep(x, [], t);
      assert w + [x] == [x] + [];
    } else {
      var h, rest := w[0], w[1..];
      WithoutOneMore(rest, x, t);
      assert w == [h] + rest && w + [x] == [h] + (rest + [x]);
      WithoutStep(h, rest, t);
      WithoutStep(h, rest + [x], t);
    }
  }

  /** Of a queue without repetitions, the head leaves first. */
  lemma WithoutHead(w: seq<Q.Item>, t: Ticket)
    requires w != [] && forall i, j :: 0 <= i < j < |w| ==> w[i].ticket != w[j].ticket
    ensures w[0].ticket == t ==> Without(w, t) == w[1..]
    ensures w[0].ticket != t ==> Without(w, t) == [w[0]] + Without(w[1..], t)
  {
    if w[0].ticket == t {
      assert forall i :: 0 <= i < |w[1..]| ==> w[1..][i] == w[i + 1];
      WithoutNone(w[1..], t);
    }
  }

  lemma CutStep(x: Q.Item, rest: seq<Q.Item>, i: nat)
    requires i < |rest|
    ensures Cut([x] + rest, i + 1) == [x] + Cut(rest, i)
  {
    assert ([x] + rest)[..i + 1] == [x] + rest[..i] && ([x] + rest)[i + 2..] == rest[i + 1..];
  }

  lemma FirstStep(x: Q.Item, rest: seq<Q.Item>, id: ExecutionId)
    ensures Q.FirstIndex([x] + rest, id) == if x.executionId == id then 0 else 1 + Q.FirstIndex(rest, id)
  {
    assert ([x] + rest)[1..] == rest;
  }

  /** `v` is `w` without `t`: the waiter at `i`, if it is not `t`, stands at `k` there, and cutting it from
    * either comes to the same. */
  ghost predicate CutsAlike(w: seq<Q.Item>, i: nat, v: seq<Q.Item>, k: nat, t: Ticket) {
    if i >= |w| then k == |v|
    else w[i].ticket != t ==> k < |v| && v[k] == w[i] && Cut(v, k) == Without(Cut(w, i), t)
  }

  lemma CutsAlikeAtTicket(x: Q.Item, rest: seq<Q.Item>, i: nat, v: seq<Q.Item>, k: nat, t: Ticket)
    requires CutsAlike(rest, i, v, k, t) && i <= |rest| && x.ticket == t
    ensures CutsAlike([x] + rest, i + 1, v, k, t)
  {
    if i < |rest| && rest[i].ticket != t {
      CutStep(x, rest, i);
      WithoutStep(x, Cut(rest, i), t);
      assert [] + Without(Cut(rest, i), t) == Without(Cut(rest, i), t);
    }
  }

  lemma CutsAlikeElsewhere(x: Q.Item, rest: seq<Q.Item>, i: nat, v: seq<Q.Item>, k: nat, t: Ticket)
    requires CutsAlike(rest, i, v, k, t) && i <= |rest| && x.ticket != t
    ensures CutsAlike([x] + rest, i + 1, [x] + v, k + 1, t)
  {
    if i < |rest| && rest[i].ticket != t {
      CutStep(x, rest, i);
      WithoutStep(x, Cut(rest, i), t);
      CutStep(x, v, k);
    }
  }

  /** Taking out `t` and cutting the first waiter of an execution, which is not `t`, commute. */
  lemma {:induction false} WithoutCut(w: seq<Q.Item>, t: Ticket, id: ExecutionId)
    ensures CutsAlike(w, Q.FirstIndex(w, id), Without(w, t), Q.FirstIndex(Without(w, t), id), t)
    decreases |w|
  {
    if w != [] {
      var x, rest := w[0], w[1..];
      var i, v := Q.FirstIndex(rest, id), Without(rest, t);
      var k := Q.FirstIndex(v, id);
      assert w == [x] + rest;
      FirstStep(x, rest, id);
      FirstStep(x, v, id);
      WithoutStep(x, rest, t);
      if x.executionId == id {
        CutsFirst(x, rest, v, t);
      } else {
        WithoutCut(rest, t, id);
        if x.ticket == t {
          assert [] + v == v;
          CutsAlikeAtTicket(x, rest, i, v, k, t);
        } else {
          CutsAlikeElsewhere(x, rest, i, v, k, t);
        }
      }
    }
  }

  lemma CutsFirst(x: Q.Item, rest: seq<Q.Item>, v: seq<Q.Item>, t: Ticket)
    requires v == Without(rest, t)
    ensures x.ticket != t ==> CutsAlike([x] + rest, 0, [x] + v, 0, t)
  {
    assert Cut([x] + rest, 0) == rest && Cut([x] + v, 0) == v;
  }

  // ---------------------------------------------------------------- moves of the undone call itself

  lemma OwnAsk(d: Desk, t: Ticket, c: Call)
    requires Lined(d, t) && Short(d.queue) && t in d.calls && d.calls[t] == c && c.phase == Begun
    ensures UndoneAt(AskedAt(d, t), t, c) == UndoneAt(d, t, c) && Lined(AskedAt(d, t), t)
  {
    var r, w, x := AskedAt(d, t), d.queue.waiting, Q.Item(c.id, t);
    assert !Waits(w, t);
    assert r.calls[t := c] == d.calls[t := c];
    if d.queue.capacity - 1 < 0 {
      WithoutOneMore(w, x, t);
      WithoutNone(w, t);
      assert (w + [x])[|w|].ticket == t;
    } else {
      assert d.queue.granted + {t} - {t} == d.queue.granted;
    }
  }

  lemma OwnGiveBack(d: Desk, t: Ticket, c: Call)
    requires Lined(d, t) && Holds(d, t)
    ensures var r := GivenBackAt(d.(calls := d.calls - {t}), t);
            UndoneAt(r, t, c) == UndoneAt(d, t, c) && t !in r.calls && Lined(r, t)
  {
    var w, rest := d.queue.waiting, d.calls - {t};
    assert rest[t := c] == d.calls[t := c];
    if w != [] {
      assert Resumed(rest, w)[t := c] == Resumed(d.calls[t := c], w);
    } else {
      assert Resumed(rest, w) == rest;
    }
  }

  // ---------------------------------------------------------------- letting the head through

  lemma HeadLined(d: Desk, t: Ticket)
    requires Lined(d, t)
    ensures Lined(HeadAt(d), t)
  {
    var w, r := d.queue.waiting, HeadAt(d);
    if w != [] {
      assert r.calls == d.calls[w[0].ticket := d.calls[w[0].ticket].(phase := Reserved)];
      if IsIn(r, t, Throttled) {
        var i :| 0 <= i < |w| && w[i].ticket == t;
        assert r.queue.waiting[i - 1].ticket == t;
      }
    }
  }

  lemma ResetHead(d: Desk, t: Ticket, c: Call)
    requires d.queue.waiting != [] ==> d.queue.waiting[0].ticket in d.calls && d.queue.waiting[0].ticket != t
    ensures Reset(HeadAt(d), t, c) == HeadAt(Reset(d, t, c))
  {
    if d.queue.waiting != [] {
      var h := d.queue.waiting[0].ticket;
      var b := d.calls[h].(phase := Reserved);
      assert d.calls[t := c][h := b] == d.calls[h := b][t := c];
    }
  }

  lemma HeadWhileHolding(d: Desk, t: Ticket, c: Call)
    requires Lined(d, t) && Holds(d, t)
    ensures UndoneAt(HeadAt(d), t, c) == HeadAt(UndoneAt(d, t, c))
  {
    var w, g := d.queue.waiting, d.queue.granted;
    ResetHead(d, t, c);
    if w != [] {
      var h := w[0].ticket;
      assert h != t;
      assert g + {h} - {t} == g - {t} + {h};
    }
  }

  lemma HeadWhileThrottled(d: Desk, t: Ticket, c: Call)
    requires Lined(d, t) && IsIn(d, t, Throttled)
    ensures UndoneAt(HeadAt(d), t, c) == HeadAt(UndoneAt(d, t, c))
  {
    var w, g := d.queue.waiting, d.queue.granted;
    WithoutHead(w, t);
    var h := w[0].ticket;
    if h == t {
      assert HeadAt(d).calls[t := c] == d.calls[t := c];
      assert g + {t} - {t} == g;
    } else {
      ResetHead(d, t, c);
      assert ([w[0]] + Without(w[1..], t))[1..] == Without(w[1..], t);
    }
  }

  /** Letting the head through comes to the same with and without `t`. */
  lemma HeadCommutes(d: Desk, t: Ticket, c: Call)
    requires Lined(d, t)
    ensures UndoneAt(HeadAt(d), t, c) == HeadAt(UndoneAt(d, t, c)) && Lined(HeadAt(d), t)
  {
    HeadLined(d, t);
    if Holds(d, t) {
      HeadWhileHolding(d, t, c);
    } else if IsIn(d, t, Throttled) {
      HeadWhileThrottled(d, t, c);
    } else {
      ResetHead(d, t, c);
    }
  }

  // ---------------------------------------------------------------- moves of the others

  lemma FreedCommutes(d: Desk, u: Ticket, t: Ticket, c: Call)
    requires Lined(d, t) && u != t && !Waits(d.queue.waiting, u)
    ensures UndoneAt(Freed(d, u), t, c) == Freed(UndoneAt(d, t, c), u) && Lined(Freed(d, u), t)
  {
    var w, g := d.queue.waiting, d.queue.granted;
    assert g - {u} - {t} == g - {t} - {u};
    if w != [] {
      assert w[0].ticket != u && g - {u} - {t} + {w[0].ticket} == g - {t} + {w[0].ticket} - {u};
    }
  }

  /** Giving back a slot comes to the same with and without `t`. */
  lemma OtherGiveBack(d: Desk, u: Ticket, t: Ticket, c: Call)
    requires Lined(d, t) && u != t && !Waits(d.queue.waiting, u)
    ensures UndoneAt(GivenBackAt(d, u), t, c) == GivenBackAt(UndoneAt(d, t, c), u) && Lined(GivenBackAt(d, u), t)
  {
    FreedCommutes(d, u, t, c);
    HeadCommutes(Freed(d, u), t, c);
  }

  lemma AskLined(d: Desk, u: Ticket, t: Ticket)
    requires Lined(d, t) && u != t && IsIn(d, u, Begun)
    ensures Lined(AskedAt(d, u), t)
  {
    var w, r, x := d.queue.waiting, AskedAt(d, u), Q.Item(d.calls[u].id, u);
    if d.queue.capacity - 1 < 0 {
      assert r.queue.waiting == w + [x];
      if IsIn(r, t, Throttled) {
        var i :| 0 <= i < |w| && w[i].ticket == t;
        assert r.queue.waiting[i].ticket == t;
      }
    }
  }

  /** The slot `t` holds lies beyond the limit, and nobody waits for one. */
  ghost predicate HoldsBeyond(d: Desk, t: Ticket) {
    Holds(d, t) && d.queue.waiting == [] && d.queue.capacity < 0
  }

  lemma AskWhileHolding(d: Desk, u: Ticket, t: Ticket, c: Call)
    requires Lined(d, t) && Short(d.queue) && u != t && IsIn(d, u, Begun) && Holds(d, t) && !HoldsBeyond(d, t)
    ensures IsIn(UndoneAt(d, t, c), u, Begun)
    ensures UndoneAt(AskedAt(d, u), t, c) == AskedAt(UndoneAt(d, t, c), u)
  {
    var w, q, cap, x := d.queue.waiting, d.queue.granted, d.queue.capacity, Q.Item(d.calls[u].id, u);
    if w != [] {
      var h := w[0].ticket;
      assert h != t && h != u && cap < 0;
      assert (w + [x])[1..] == w[1..] + [x];
      var b, a := d.calls[h].(phase := Reserved), d.calls[u].(phase := Throttled);
      assert d.calls[u := a][t := c][h := b] == d.calls[t := c][h := b][u := a];
    } else if cap == 0 {
      assert [x][1..] == [];
      var a := d.calls[u].(phase := Reserved);
      assert d.calls[u := d.calls[u].(phase := Throttled)][t := c][u := a] == d.calls[t := c][u := a];
    } else {
      assert q + {u} - {t} == q - {t} + {u};
      var a := d.calls[u].(phase := Reserved);
      assert d.calls[u := a][t := c] == d.calls[t := c][u := a];
    }
  }

  /** A call that asks now waits; without `t` the queue is as full, but when `t` ends, the call is let through. */
  lemma AskBeyond(d: Desk, u: Ticket, t: Ticket, c: Call)
    requires Lined(d, t) && u != t && IsIn(d, u, Begun) && HoldsBeyond(d, t)
    ensures IsIn(UndoneAt(d, t, c), u, Begun)
    ensures IsIn(UndoneAt(AskedAt(d, u), t, c), u, Reserved)
    ensures IsIn(AskedAt(UndoneAt(d, t, c), u), u, Throttled)
  {
  }

  /** Asking for a slot comes to the same with and without `t`, exactly unless `t` holds one beyond the limit. */
  lemma OtherAskIff(d: Desk, u: Ticket, t: Ticket, c: Call)
    requires Lined(d, t) && Short(d.queue) && u != t && IsIn(d, u, Begun)
    ensures IsIn(UndoneAt(d, t, c), u, Begun) && UndoneAt(d, t, c).calls[u] == d.calls[u]
    ensures UndoneAt(AskedAt(d, u), t, c) == AskedAt(UndoneAt(d, t, c), u) <==> !HoldsBeyond(d, t)
    ensures Lined(AskedAt(d, u), t)
  {
    AskLined(d, u, t);
    var w, x, a := d.queue.waiting, Q.Item(d.calls[u].id, u), AskedAt(d, u).calls[u];
    if HoldsBeyond(d, t) {
      AskBeyond(d, u, t, c);
    } else if Holds(d, t) {
      AskWhileHolding(d, u, t, c);
    } else {
      assert d.calls[u := a][t := c] == d.calls[t := c][u := a];
      WithoutOneMore(w, x, t);
    }
  }

  lemma CutLined(d: Desk, i: nat, t: Ticket)
    requires Lined(d, t) && i < |d.queue.waiting| && d.queue.waiting[i].ticket != t
    ensures Lined(CutAt(d, i), t)
  {
    var w, r := d.queue.waiting, CutAt(d, i);
    assert forall j :: 0 <= j < |r.queue.waiting| ==> r.queue.waiting[j] == w[if j < i then j else j + 1];
    if IsIn(r, t, Throttled) {
      var j :| 0 <= j < |w| && w[j].ticket == t;
      assert r.queue.waiting[if j < i then j else j - 1].ticket == t;
    }
  }

  lemma ResetCut(d: Desk, i: nat, t: Ticket, c: Call)
    requires i < |d.queue.waiting| && d.queue.waiting[i].ticket in d.calls && d.queue.waiting[i].ticket != t
    ensures Reset(CutAt(d, i), t, c) == CutAt(Reset(d, t, c), i)
  {
    var u := d.queue.waiting[i].ticket;
    var b := d.calls[u].(phase := Dropped);
    assert d.calls[t := c][u := b] == d.calls[u := b][t := c];
  }

  /** The first waiter of the execution, if it is not the head, is cancelled while `t` holds a slot. */
  lemma CutWhileHolding(d: Desk, i: nat, t: Ticket, c: Call)
    requires Lined(d, t) && Holds(d, t) && 0 < i < |d.queue.waiting|
    ensures UndoneAt(d, t, c).queue.waiting == d.queue.waiting[1..]
    ensures d.queue.waiting[i].ticket in UndoneAt(d, t, c).calls
    ensures UndoneAt(CutAt(d, i), t, c) == CutAt(UndoneAt(d, t, c), i - 1)
  {
    var w := d.queue.waiting;
    var h, u := w[0].ticket, w[i].ticket;
    assert h != t && u != t && h != u;
    ResetCut(d, i, t, c);
    assert Cut(w, i)[0] == w[0] && Cut(w, i)[1..] == Cut(w[1..], i - 1);
    var b, a := d.calls[h].(phase := Reserved), d.calls[u].(phase := Dropped);
    assert d.calls[t := c][u := a][h := b] == d.calls[t := c][h := b][u := a];
  }

  /** Cancelling somebody leaves alone who does not wait. */
  lemma DropKeepsPhase(d: Desk, id: ExecutionId, u: Ticket)
    requires !Waits(d.queue.waiting, u)
    ensures u in DroppedAt(d, id).calls <==> u in d.calls
    ensures u in d.calls ==> DroppedAt(d, id).calls[u] == d.calls[u]
  {
    var w, i := d.queue.waiting, Q.FirstIndex(d.queue.waiting, id);
    if i < |w| && w[i].ticket in d.calls {
      var cut := Cut(w, i);
      assert forall j :: 0 <= j < |cut| ==> cut[j] == w[if j < i then j else j + 1];
    }
  }

  /** The head is cancelled while `t` holds the slot that else the head would have. */
  lemma CutTheHead(d: Desk, id: ExecutionId, t: Ticket, c: Call)
    requires Lined(d, t) && Holds(d, t) && d.queue.waiting != [] && Q.FirstIndex(d.queue.waiting, id) == 0
    ensures var h := d.queue.waiting[0].ticket;
            IsIn(UndoneAt(DroppedAt(d, id), t, c), h, Dropped) && IsIn(DroppedAt(UndoneAt(d, t, c), id), h, Reserved)
  {
    HeadDropped(d, t, c);
    HeadTaken(d, t, c);
    DropKeepsPhase(UndoneAt(d, t, c), id, d.queue.waiting[0].ticket);
  }

  lemma HeadTaken(d: Desk, t: Ticket, c: Call)
    requires Lined(d, t) && Holds(d, t) && d.queue.waiting != []
    ensures var e, h := UndoneAt(d, t, c), d.queue.waiting[0].ticket; IsIn(e, h, Reserved) && !Waits(e.queue.waiting, h)
  {
    var w := d.queue.waiting;
    assert w[0].ticket != t;
    assert forall i :: 0 <= i < |w[1..]| ==> w[1..][i] == w[i + 1];
  }

  lemma HeadDropped(d: Desk, t: Ticket, c: Call)
    requires Lined(d, t) && Holds(d, t) && d.queue.waiting != []
    ensures IsIn(UndoneAt(HeadAt(CutAt(d, 0)), t, c), d.queue.waiting[0].ticket, Dropped)
  {
    var w := d.queue.waiting;
    assert Cut(w, 0) == w[1..];
    assert forall i :: 0 <= i < |w[1..]| ==> w[1..][i] == w[i + 1];
  }

  ghost predicate DropsFrom(d: Desk, id: ExecutionId, t: Ticket) {
    var i := Q.FirstIndex(d.queue.waiting, id);
    i < |d.queue.waiting| && d.queue.waiting[i].ticket == t
  }

  lemma DropWhileHolding(d: Desk, id: ExecutionId, t: Ticket, c: Call)
    requires Lined(d, t) && Holds(d, t) && (d.queue.waiting != [] ==> Q.FirstIndex(d.queue.waiting, id) > 0)
    ensures UndoneAt(DroppedAt(d, id), t, c) == DroppedAt(UndoneAt(d, t, c), id)
  {
    var w, i := d.queue.waiting, Q.FirstIndex(d.queue.waiting, id);
    if w != [] {
      assert Q.FirstIndex(w[1..], id) == i - 1;
      if i < |w| {
        CutLined(d, i, t);
        CutWhileHolding(d, i, t, c);
        HeadCommutes(CutAt(d, i), t, c);
      }
    }
  }

  lemma DropWhileThrottled(d: Desk, id: ExecutionId, t: Ticket, c: Call)
    requires Lined(d, t) && IsIn(d, t, Throttled) && !DropsFrom(d, id, t)
    ensures UndoneAt(DroppedAt(d, id), t, c) == DroppedAt(UndoneAt(d, t, c), id)
  {
    var w, i := d.queue.waiting, Q.FirstIndex(d.queue.waiting, id);
    WithoutCut(w, t, id);
    if i < |w| {
      ResetCut(d, i, t, c);
      CutLined(d, i, t);
      HeadCommutes(CutAt(d, i), t, c);
      assert UndoneAt(CutAt(d, i), t, c) == CutAt(UndoneAt(d, t, c), Q.FirstIndex(Without(w, t), id));
    }
  }

  lemma ResetDrop(d: Desk, id: ExecutionId, t: Ticket, c: Call)
    requires Lined(d, t) && !IsIn(d, t, Throttled)
    ensures Reset(DroppedAt(d, id), t, c) == DroppedAt(Reset(d, t, c), id)
  {
    var i := Q.FirstIndex(d.queue.waiting, id);
    if i < |d.queue.waiting| {
      CutLined(d, i, t);
      ResetCut(d, i, t, c);
      ResetHead(CutAt(d, i), t, c);
    }
  }

  /** Cancelling a throttled execution comes to the same with and without `t`, exactly unless it finds the
    * head of the queue while `t` holds a slot. */
  lemma OtherDropIff(d: Desk, id: ExecutionId, t: Ticket, c: Call)
    requires Lined(d, t) && !DropsFrom(d, id, t)
    ensures UndoneAt(DroppedAt(d, id), t, c) == DroppedAt(UndoneAt(d, t, c), id) <==>
            !(Holds(d, t) && d.queue.waiting != [] && Q.FirstIndex(d.queue.waiting, id) == 0)
    ensures Lined(DroppedAt(d, id), t)
  {
    var w, i := d.queue.waiting, Q.FirstIndex(d.queue.waiting, id);
    DropLined(d, id, t);
    if Holds(d, t) {
      if w != [] && i == 0 {
        CutTheHead(d, id, t, c);
      } else {
        DropWhileHolding(d, id, t, c);
      }
    } else if IsIn(d, t, Throttled) {
      DropWhileThrottled(d, id, t, c);
    } else {
      ResetDrop(d, id, t, c);
      DropKeepsPhase(d, id, t);
    }
  }

  lemma DropLined(d: Desk, id: ExecutionId, t: Ticket)
    requires Lined(d, t) && !DropsFrom(d, id, t)
    ensures Lined(DroppedAt(d, id), t)
  {
    var i := Q.FirstIndex(d.queue.waiting, id);
    if i < |d.queue.waiting| {
      CutLined(d, i, t);
      HeadLined(CutAt(d, i), t);
    }
  }

  // ---------------------------------------------------------------- changes outside the queue

  lemma ChangeLined(d: Desk, u: Ticket, x: Option<Call>, t: Ticket)
    requires Lined(d, t) && u != t && !IsIn(d, u, Throttled) && (x.Some? ==> x.value.phase != Throttled)
    ensures Lined(Changed(d, u, x), t)
  {
  }

  lemma ChangeCommutes(calls: map<Ticket, Call>, u: Ticket, x: Option<Call>, t: Ticket, c: Call, w: seq<Q.Item>)
    requires u != t && (w != [] ==> w[0].ticket in calls && w[0].ticket != u && w[0].ticket != t)
    ensures var changed := if x.Some? then calls[u := x.value] else calls - {u};
            var undone := calls[t := c];
            && changed[t := c] == (if x.Some? then undone[u := x.value] else undone - {u})
            && Resumed(changed[t := c], w) ==
               (if x.Some? then Resumed(undone, w)[u := x.value] else Resumed(undone, w) - {u})
  {
    var changed := if x.Some? then calls[u := x.value] else calls - {u};
    var undone := calls[t := c];
    assert changed[t := c] == (if x.Some? then undone[u := x.value] else undone - {u});
    if w != [] {
      assert w[0].ticket in changed[t := c] && changed[t := c][w[0].ticket] == undone[w[0].ticket];
    }
  }

  lemma OtherChange(d: Desk, u: Ticket, x: Option<Call>, t: Ticket, c: Call)
    requires Lined(d, t) && u != t && !IsIn(d, u, Throttled) && (x.Some? ==> x.value.phase != Throttled)
    ensures UndoneAt(Changed(d, u, x), t, c) == Changed(UndoneAt(d, t, c), u, x)
  {
    var w := d.queue.waiting;
    if Holds(d, t) {
      assert w != [] ==> w[0].ticket != u && w[0].ticket != t;
      ChangeCommutes(d.calls, u, x, t, c, w);
    } else {
      ChangeCommutes(d.calls, u, x, t, c, []);
    }
  }
}
