/** The two kinds of step, switching the control off aside, by which a losing resume leaves a trace, each in
  * a concrete run. */
module LosingResumeTraces {
  import opened ProcessModel
  import opened ProcessCapacity
  import opened ReservationDesk
  import opened LosingResume
  import Q = ConcurrencyQueue

  // ---------------------------------------------------------------- cancelling the head

  const CANCEL_RUN := [Throttle(0), Throttle(1), Drop("a"), Admit(0, false), Abandon(0)]
  const CANCEL_OTHERS := [Throttle(1), Drop("a")]

  const LOSER := Call("x", true, true, Begun)
  const BEHIND := Call("a", false, true, Begun)

  ghost predicate TwoCalls(p: Process) {
    p.enabled && p.queue == Q.Empty(1) && p.calls == map[0 := LOSER, 1 := BEHIND]
  }

  lemma QueuedBehind(p: Process)
    requires TwoCalls(p)
    ensures var p1 := Step(p, Throttle(0));
            && InPhase(p1, 1, Begun)
            && var p2 := Step(p1, Throttle(1));
               p2.enabled && p2.queue == Q.State(-1, [Q.Item("a", 1)], {0})
               && p2.calls == map[0 := LOSER.(phase := Reserved), 1 := BEHIND.(phase := Throttled)]
  {
    var p1 := Step(p, Throttle(0));
    assert p1.queue == Q.State(0, [], {0}) && p1.calls == map[0 := LOSER.(phase := Reserved), 1 := BEHIND];
  }

  lemma DropsBehind(p: Process)
    requires p.enabled && p.queue == Q.State(-1, [Q.Item("a", 1)], {0})
    requires p.calls == map[0 := LOSER.(phase := Reserved), 1 := BEHIND.(phase := Throttled)]
    ensures Step(p, Drop("a")).calls == map[0 := LOSER.(phase := Reserved), 1 := BEHIND.(phase := Dropped)]
    ensures Step(p, Drop("a")).queue.waiting == []
  {
    assert Q.FirstIndex(p.queue.waiting, "a") == 0;
    assert [Q.Item("a", 1)][..0] + [Q.Item("a", 1)][1..] == [];
  }

  lemma LosesAlone(p: Process)
    requires p.queue.waiting == []
    requires p.calls == map[0 := LOSER.(phase := Reserved), 1 := BEHIND.(phase := Dropped)]
    ensures var ops := [Admit(0, false)] + [Abandon(0)]; PossibleRun(p, ops) && InPhase(After(p, ops), 1, Dropped)
  {
    var p1 := Step(p, Admit(0, false));
    assert InPhase(p1, 0, Refused) && InPhase(p1, 1, Dropped);
    var p2 := Step(p1, Abandon(0));
    assert InPhase(p2, 1, Dropped);
    Prepend(p1, Abandon(0), []);
    assert [Abandon(0)] + [] == [Abandon(0)];
    Prepend(p, Admit(0, false), [Abandon(0)]);
  }

  lemma CancelledBehind(p: Process)
    requires p.enabled && p.queue == Q.State(-1, [Q.Item("a", 1)], {0})
    requires p.calls == map[0 := LOSER.(phase := Reserved), 1 := BEHIND.(phase := Throttled)]
    ensures var ops := [Drop("a"), Admit(0, false), Abandon(0)];
            PossibleRun(p, ops) && InPhase(After(p, ops), 1, Dropped)
  {
    DropsBehind(p);
    LosesAlone(Step(p, Drop("a")));
    Prepend(p, Drop("a"), [Admit(0, false)] + [Abandon(0)]);
    assert [Drop("a")] + ([Admit(0, false)] + [Abandon(0)]) == [Drop("a"), Admit(0, false), Abandon(0)];
  }

  lemma NothingToCancel(p: Process)
    requires TwoCalls(p)
    ensures PossibleRun(p, CANCEL_OTHERS) && InPhase(After(p, CANCEL_OTHERS), 1, Reserved)
  {
    var q1 := Step(p, Throttle(1));
    assert q1.queue == Q.State(0, [], {1}) && InPhase(q1, 1, Reserved);
    assert Step(q1, Drop("a")) == q1;
    Prepend(q1, Drop("a"), []);
    Prepend(p, Throttle(1), [Drop("a")] + []);
    assert [Throttle(1)] + ([Drop("a")] + []) == CANCEL_OTHERS;
  }

  /** With one slot, call 1 waits behind the losing call 0 and is cancelled in the queue. Without call 0 it
    * would have been let through, and the same cancellation would not have found it. */
  lemma CancelledBehindTheLoser()
    ensures var p := Step(Step(Fresh(1, true), Begin("x", true, true)), Begin("a", false, true));
            && PossibleRun(p, CANCEL_RUN) && OnlyLoses(CANCEL_RUN, 0)
            && Others(CANCEL_RUN, 0) == CANCEL_OTHERS && PossibleRun(p, CANCEL_OTHERS)
            && InPhase(After(p, CANCEL_RUN), 1, Dropped) && InPhase(After(p, CANCEL_OTHERS), 1, Reserved)
  {
    var p := Step(Step(Fresh(1, true), Begin("x", true, true)), Begin("a", false, true));
    assert TwoCalls(p);
    QueuedBehind(p);
    var p1 := Step(p, Throttle(0));
    var p2, rest := Step(p1, Throttle(1)), [Drop("a"), Admit(0, false), Abandon(0)];
    CancelledBehind(p2);
    Prepend(p1, Throttle(1), rest);
    Prepend(p, Throttle(0), [Throttle(1)] + rest);
    assert [Throttle(0)] + ([Throttle(1)] + rest) == CANCEL_RUN;
    NothingToCancel(p);
    OthersHere();
  }

  lemma OthersHere()
    ensures OnlyLoses(CANCEL_RUN, 0) && Others(CANCEL_RUN, 0) == CANCEL_OTHERS
  {
    var ops := CANCEL_RUN;
    assert ops[1..] == [Throttle(1), Drop("a"), Admit(0, false), Abandon(0)];
    assert ops[1..][1..] == [Drop("a"), Admit(0, false), Abandon(0)];
    assert ops[1..][1..][1..] == [Admit(0, false), Abandon(0)];
    assert ops[1..][1..][1..][1..] == [Abandon(0)];
    assert ops[1..][1..][1..][1..][1..] == [];
    assert Others([Admit(0, false), Abandon(0)], 0) == [];
    assert Others([Drop("a"), Admit(0, false), Abandon(0)], 0) == [Drop("a")];
  }

  // ---------------------------------------------------------------- asking behind a slot beyond the limit

  const LOSER_RUN := [Throttle(3), Abandon(0), Throttle(4), Admit(3, false), Abandon(3)]
  const OTHERS_RUN := [Abandon(0), Throttle(4)]

  const FIRST := Call("a", false, true, Begun)
  const SECOND := Call("b", false, true, Begun)
  const THIRD := Call("c", false, true, Begun)
  const LAST := Call("d", false, true, Begun)

  ghost predicate At(p: Process, calls: map<Ticket, Call>, queue: Q.State, issued: nat) {
    p.enabled && p.calls == calls && p.queue == queue && p.issued == issued
  }

  /** One slot, and two calls that hold one: cancelling the second of three let the third through. */
  ghost predicate OverAdmitted(p: Process) {
    At(p, map[0 := FIRST.(phase := Refused), 1 := SECOND.(phase := Dropped), 2 := THIRD.(phase := Reserved),
              3 := LOSER, 4 := LAST], Q.State(-1, [], {0, 2}), 5)
  }

  lemma FirstAsks(p: Process)
    requires At(p, map[0 := FIRST, 1 := SECOND, 2 := THIRD], Q.Empty(1), 3)
    ensures At(Step(p, Throttle(0)), map[0 := FIRST.(phase := Reserved), 1 := SECOND, 2 := THIRD],
            Q.State(0, [], {0}), 3)
  {
  }

  lemma SecondAsks(p: Process)
    requires At(p, map[0 := FIRST.(phase := Reserved), 1 := SECOND, 2 := THIRD], Q.State(0, [], {0}), 3)
    ensures At(Step(p, Throttle(1)), map[0 := FIRST.(phase := Reserved), 1 := SECOND.(phase := Throttled), 2 := THIRD],
               Q.State(-1, [Q.Item("b", 1)], {0}), 3)
  {
  }

  lemma ThirdAsks(p: Process)
    requires At(p, map[0 := FIRST.(phase := Reserved), 1 := SECOND.(phase := Throttled), 2 := THIRD],
                Q.State(-1, [Q.Item("b", 1)], {0}), 3)
    ensures At(Step(p, Throttle(2)),
               map[0 := FIRST.(phase := Reserved), 1 := SECOND.(phase := Throttled), 2 := THIRD.(phase := Throttled)],
               Q.State(-2, [Q.Item("b", 1), Q.Item("c", 2)], {0}), 3)
  {
  }

  lemma SecondCancelled(p: Process)
    requires At(p, map[0 := FIRST.(phase := Reserved), 1 := SECOND.(phase := Throttled),
                       2 := THIRD.(phase := Throttled)],
                Q.State(-2, [Q.Item("b", 1), Q.Item("c", 2)], {0}), 3)
    ensures At(Step(p, Drop("b")),
               map[0 := FIRST.(phase := Reserved), 1 := SECOND.(phase := Dropped), 2 := THIRD.(phase := Reserved)],
               Q.State(-1, [], {0, 2}), 3)
  {
    var w := [Q.Item("b", 1), Q.Item("c", 2)];
    assert Q.FirstIndex(w, "b") == 0;
    assert Cut(w, 0) == [Q.Item("c", 2)];
    DropForm(p, "b");
  }

  lemma LoserArrives(p: Process)
    requires At(p, map[0 := FIRST.(phase := Reserved), 1 := SECOND.(phase := Dropped), 2 := THIRD.(phase := Reserved)],
                Q.State(-1, [], {0, 2}), 3)
    ensures OverAdmitted(Step(Step(Step(p, Admit(0, false)), Begin("x", true, true)), Begin("d", false, true)))
  {
    var q := Step(p, Admit(0, false));
    assert q.calls == map[0 := FIRST.(phase := Refused), 1 := SECOND.(phase := Dropped),
                          2 := THIRD.(phase := Reserved)];
  }

  lemma OverAdmissionReachable() returns (before: seq<Op>)
    ensures PossibleRun(Fresh(1, true), before) && OverAdmitted(After(Fresh(1, true), before))
  {
    var p := Fresh(1, true);
    before := TheyAsk();
    var q := After(p, before);
    SecondCancelled(q);
    LoserArrives(Step(q, Drop("b")));
    Extend(p, before, Drop("b"));
    before := before + [Drop("b")];
    Extend(p, before, Admit(0, false));
    before := before + [Admit(0, false)];
    Extend(p, before, Begin("x", true, true));
    before := before + [Begin("x", true, true)];
    Extend(p, before, Begin("d", false, true));
    before := before + [Begin("d", false, true)];
  }

  lemma TheyBegin() returns (ops: seq<Op>)
    ensures PossibleRun(Fresh(1, true), ops)
    ensures At(After(Fresh(1, true), ops), map[0 := FIRST, 1 := SECOND, 2 := THIRD], Q.Empty(1), 3)
  {
    var p := Fresh(1, true);
    Extend(p, [], Begin("a", false, true));
    ops := [] + [Begin("a", false, true)];
    Extend(p, ops, Begin("b", false, true));
    ops := ops + [Begin("b", false, true)];
    Extend(p, ops, Begin("c", false, true));
    ops := ops + [Begin("c", false, true)];
  }

  lemma TheyAsk() returns (ops: seq<Op>)
    ensures PossibleRun(Fresh(1, true), ops)
    ensures At(After(Fresh(1, true), ops),
               map[0 := FIRST.(phase := Reserved), 1 := SECOND.(phase := Throttled), 2 := THIRD.(phase := Throttled)],
               Q.State(-2, [Q.Item("b", 1), Q.Item("c", 2)], {0}), 3)
  {
    var p := Fresh(1, true);
    ops := TheyBegin();
    var q := After(p, ops);
    FirstAsks(q);
    SecondAsks(Step(q, Throttle(0)));
    ThirdAsks(Step(Step(q, Throttle(0)), Throttle(1)));
    Extend(p, ops, Throttle(0));
    ops := ops + [Throttle(0)];
    Extend(p, ops, Throttle(1));
    ops := ops + [Throttle(1)];
    Extend(p, ops, Throttle(2));
    ops := ops + [Throttle(2)];
  }

  lemma WithTheLoser(p: Process)
    requires OverAdmitted(p)
    ensures PossibleRun(p, LOSER_RUN)
    ensures After(p, LOSER_RUN).queue == Q.State(-1, [], {2, 4}) && InPhase(After(p, LOSER_RUN), 4, Reserved)
  {
    LoserQueues(p);
    var q := Step(Step(p, Throttle(3)), Abandon(0));
    LastQueues(q);
    LoserLoses(Step(q, Throttle(4)));
    Prepend(q, Throttle(4), [Admit(3, false)] + [Abandon(3)]);
    Prepend(Step(p, Throttle(3)), Abandon(0), [Throttle(4)] + ([Admit(3, false)] + [Abandon(3)]));
    Prepend(p, Throttle(3), [Abandon(0)] + ([Throttle(4)] + ([Admit(3, false)] + [Abandon(3)])));
    assert [Throttle(3)] + ([Abandon(0)] + ([Throttle(4)] + ([Admit(3, false)] + [Abandon(3)])))
        == LOSER_RUN;
  }

  /** In that state, the losing call 3 queues and gets the slot of call 0; call 4 queues behind it and gets its
    * slot when it has lost, one beyond the limit. Without call 3, call 4 would wait. */
  lemma LetThroughBehindTheLoser(p: Process)
    requires OverAdmitted(p)
    ensures PossibleRun(p, LOSER_RUN) && OnlyLoses(LOSER_RUN, 3)
    ensures Others(LOSER_RUN, 3) == OTHERS_RUN && PossibleRun(p, OTHERS_RUN)
    ensures After(p, LOSER_RUN).queue == Q.State(-1, [], {2, 4}) && InPhase(After(p, LOSER_RUN), 4, Reserved)
    ensures After(p, OTHERS_RUN).queue == Q.State(-1, [Q.Item("d", 4)], {2})
    ensures InPhase(After(p, OTHERS_RUN), 4, Throttled)
  {
    WithTheLoser(p);
    LastWaits(p);
    OthersThere();
  }

  lemma LoserQueues(p: Process)
    requires OverAdmitted(p)
    ensures InPhase(Step(p, Throttle(3)), 0, Refused)
    ensures var q := Step(Step(p, Throttle(3)), Abandon(0));
            At(q, map[1 := SECOND.(phase := Dropped), 2 := THIRD.(phase := Reserved), 3 := LOSER.(phase := Reserved),
                      4 := LAST], Q.State(-1, [], {2, 3}), 5)
  {
    var q := Step(p, Throttle(3));
    assert q.queue == Q.State(-2, [Q.Item("x", 3)], {0, 2});
    assert q.calls == map[0 := FIRST.(phase := Refused), 1 := SECOND.(phase := Dropped), 2 := THIRD.(phase := Reserved),
                          3 := LOSER.(phase := Throttled), 4 := LAST];
    AbandonForm(q, 0);
    ReleasedForm(Leaving(q, 0), 0, true);
  }

  lemma LastQueues(p: Process)
    requires At(p, map[1 := SECOND.(phase := Dropped), 2 := THIRD.(phase := Reserved), 3 := LOSER.(phase := Reserved),
                       4 := LAST], Q.State(-1, [], {2, 3}), 5)
    ensures At(Step(p, Throttle(4)),
               map[1 := SECOND.(phase := Dropped), 2 := THIRD.(phase := Reserved), 3 := LOSER.(phase := Reserved),
                   4 := LAST.(phase := Throttled)], Q.State(-2, [Q.Item("d", 4)], {2, 3}), 5)
  {
  }

  lemma LoserLoses(p: Process)
    requires At(p, map[1 := SECOND.(phase := Dropped), 2 := THIRD.(phase := Reserved), 3 := LOSER.(phase := Reserved),
                       4 := LAST.(phase := Throttled)], Q.State(-2, [Q.Item("d", 4)], {2, 3}), 5)
    ensures var ops := [Admit(3, false)] + [Abandon(3)];
            PossibleRun(p, ops) && After(p, ops).queue == Q.State(-1, [], {2, 4}) && InPhase(After(p, ops), 4, Reserved)
  {
    var q := Step(p, Admit(3, false));
    assert InPhase(q, 3, Refused) && InPhase(q, 4, Throttled);
    AbandonForm(q, 3);
    ReleasedForm(Leaving(q, 3), 3, true);
    Prepend(q, Abandon(3), []);
    assert [Abandon(3)] + [] == [Abandon(3)];
    Prepend(p, Admit(3, false), [Abandon(3)]);
  }

  lemma LastWaits(p: Process)
    requires OverAdmitted(p)
    ensures PossibleRun(p, OTHERS_RUN) && InPhase(After(p, OTHERS_RUN), 4, Throttled)
    ensures After(p, OTHERS_RUN).queue == Q.State(-1, [Q.Item("d", 4)], {2})
  {
    var q := Step(p, Abandon(0));
    AbandonForm(p, 0);
    ReleasedForm(Leaving(p, 0), 0, true);
    assert q.queue == Q.State(0, [], {2}) && InPhase(q, 4, Begun) && q.calls[4] == LAST;
    Prepend(q, Throttle(4), []);
    assert [Throttle(4)] + [] == [Throttle(4)];
    Prepend(p, Abandon(0), [Throttle(4)]);
    assert [Abandon(0)] + [Throttle(4)] == OTHERS_RUN;
  }

  lemma OthersThere()
    ensures OnlyLoses(LOSER_RUN, 3) && Others(LOSER_RUN, 3) == OTHERS_RUN
  {
    var ops := LOSER_RUN;
    assert ops[1..] == [Abandon(0), Throttle(4), Admit(3, false), Abandon(3)];
    assert ops[1..][1..] == [Throttle(4), Admit(3, false), Abandon(3)];
    assert ops[1..][1..][1..] == [Admit(3, false), Abandon(3)];
    assert ops[1..][1..][1..][1..] == [Abandon(3)];
    assert ops[1..][1..][1..][1..][1..] == [];
    assert Others([Admit(3, false), Abandon(3)], 3) == [];
    assert Others([Throttle(4), Admit(3, false), Abandon(3)], 3) == [Throttle(4)];
  }
}
