/** A parent execution that waits while its children complete concurrently, over any number of waiting
  * episodes. Each completion reads the parent's row, writes the child's output into it, reads the row again
  * and tries to resume the parent; the four accesses interleave freely with those of every other waker. */
module ParentUpdate {
  import opened Wrappers

  /** What a node on the stack is given: the data of the main connections and that of the others. */
  datatype Input = Input(main: string, others: string)

  datatype Frame = Frame(node: string, data: Input)

  /** `stack` is `executionData.nodeExecutionStack`, or None without executionData. */
  datatype RunData = RunData(stack: Option<seq<Frame>>, rest: string)

  datatype Status = Waiting | Running | Finished | Stopped

  /** Reads are marked with the episode they were made in. */
  datatype Phase =
    | Idle
    | HasRead(copy: RunData, episode: nat)
    | Updated
    | HasRow(row: RunData, episode: nat)
    | Over(won: bool)

  /** A completed child, whose last node may have left an output; a timer; or a webhook or chat message, whose
    * data go to the main connections of the stack head. */
  datatype Source = Child(output: Option<Input>) | Timer | Webhook(payload: string)

  datatype Waker = Waker(source: Source, phase: Phase)

  datatype Resumption = Resumption(waker: nat, data: RunData)

  /** The parent's row and its wakers. The rest is history: the number of the current episode, the data it
    * began with, and the resumes since. */
  datatype Parent = Parent(
    status: Status,
    data: RunData,
    wakers: seq<Waker>,
    episode: nat,
    parked: RunData,
    resumed: seq<Resumption>)

  datatype Event =
    | Read(i: nat)
    | Write(i: nat)
    | ReRead(i: nat)
    | Claim(i: nat)
    | ParentSaves(data: RunData)
    | ParentLeaves(status: Status)
    | ParentParks(data: RunData)

  predicate HasStack(d: RunData) {
    d.stack.Some? && d.stack.value != []
  }

  function WithHead(d: RunData, out: Input): RunData {
    if HasStack(d) then d.(stack := Some([d.stack.value[0].(data := out)] + d.stack.value[1..])) else d
  }

  function WithMain(d: RunData, payload: string): RunData {
    if HasStack(d) then WithHead(d, d.stack.value[0].data.(main := payload)) else d
  }

  /** The data a waker resumes the parent with, having read `row`. */
  function Brought(source: Source, row: RunData): RunData {
    if source.Webhook? then WithMain(row, source.payload) else row
  }

  predicate HasOutput(source: Source) {
    source.Child? && source.output.Some?
  }

  predicate Enabled(s: Parent, e: Event) {
    match e
    case Read(i) => i < |s.wakers| && s.wakers[i].phase.Idle?
    case Write(i) => i < |s.wakers| && s.wakers[i].phase.HasRead? && HasOutput(s.wakers[i].source)
    case ReRead(i) => i < |s.wakers| && s.wakers[i].phase.Updated?
    case Claim(i) => i < |s.wakers| && s.wakers[i].phase.HasRow?
    case ParentSaves(_) => s.status != Waiting
    case ParentLeaves(status) => status != Waiting
    case ParentParks(_) => s.status == Running
  }

  function WithPhase(s: Parent, i: nat, phase: Phase): Parent
    requires i < |s.wakers|
  {
    s.(wakers := s.wakers[i := s.wakers[i].(phase := phase)])
  }

  /** The waker gives up when it reads the row: the execution has finished, or, for a webhook, is running or
    * has no node to give the data to. */
  predicate TurnsAway(s: Parent, source: Source) {
    s.status == Finished || (source.Webhook? && (s.status == Running || !HasStack(s.data)))
  }

  function Next(s: Parent, e: Event): Parent
    requires Enabled(s, e)
  {
    match e
    case Read(i) =>
      if !HasOutput(s.wakers[i].source) || s.status != Waiting || !HasStack(s.data) then WithPhase(s, i, Updated)
      else WithPhase(s, i, HasRead(s.data, s.episode))
    case Write(i) =>
      WithPhase(s, i, Updated).(data := WithHead(s.wakers[i].phase.copy, s.wakers[i].source.output.value))
    case ReRead(i) =>
      WithPhase(s, i, if TurnsAway(s, s.wakers[i].source) then Over(false) else HasRow(s.data, s.episode))
    case Claim(i) =>
      if s.status != Waiting then WithPhase(s, i, Over(false))
      else
        var data := Brought(s.wakers[i].source, s.wakers[i].phase.row);
        WithPhase(s, i, Over(true)).(status := Running, data := data, resumed := s.resumed + [Resumption(i, data)])
    case ParentSaves(d) => s.(data := d)
    case ParentLeaves(status) => s.(status := status)
    case ParentParks(d) => s.(status := Waiting, data := d, episode := s.episode + 1, parked := d, resumed := [])
  }

  ghost predicate EnabledRun(s: Parent, es: seq<Event>)
    decreases |es|
  {
    es == [] || (Enabled(s, es[0]) && EnabledRun(Next(s, es[0]), es[1..]))
  }

  ghost function After(s: Parent, es: seq<Event>): Parent
    requires EnabledRun(s, es)
    decreases |es|
  {
    if es == [] then s else After(Next(s, es[0]), es[1..])
  }

  predicate WithinEpisode(es: seq<Event>) {
    forall i :: 0 <= i < |es| ==> !es[i].ParentParks?
  }

  // ---------------------------------------------------------------- data that fit an episode

  /** `d` is `base` with nothing changed but the data of the stack head, which are `out`. */
  predicate HeadIs(base: RunData, d: RunData, out: Input) {
    if base.stack.None? || |base.stack.value| == 0 then d == base
    else
      && d.rest == base.rest && d.stack.Some? && |d.stack.value| == |base.stack.value|
      && d.stack.value[1..] == base.stack.value[1..]
      && d.stack.value[0].node == base.stack.value[0].node && d.stack.value[0].data == out
  }

  /** `d` is `base` with nothing changed but the main data of the stack head, which are `payload`. */
  predicate MainIs(base: RunData, d: RunData, payload: string) {
    if base.stack.None? || |base.stack.value| == 0 then d == base
    else
      && d.rest == base.rest && d.stack.Some? && |d.stack.value| == |base.stack.value|
      && d.stack.value[1..] == base.stack.value[1..]
      && d.stack.value[0].node == base.stack.value[0].node
      && d.stack.value[0].data.others == base.stack.value[0].data.others
      && d.stack.value[0].data.main == payload
  }

  /** What a waker that has read `row` makes of it. */
  predicate BringsIs(source: Source, row: RunData, d: RunData) {
    match source
    case Webhook(payload) => MainIs(row, d, payload)
    case _ => d == row
  }

  /** The parked data with exactly the data of the stack head replaced, by the output of one of the children. */
  ghost predicate Replaced(sources: seq<Source>, parked: RunData, d: RunData) {
    exists i :: 0 <= i < |sources| && sources[i].Child? && sources[i].output.Some?
                && HeadIs(parked, d, sources[i].output.value)
  }

  ghost predicate Fitting(sources: seq<Source>, parked: RunData, d: RunData) {
    d == parked || Replaced(sources, parked, d)
  }

  /** The parent goes on with fitting data, to which a webhook has added its own. */
  ghost predicate WellResumed(sources: seq<Source>, parked: RunData, r: Resumption) {
    && r.waker < |sources|
    && exists d :: Fitting(sources, parked, d) && BringsIs(sources[r.waker], d, r.data)
  }

  lemma HeadForm(base: RunData, d: RunData, out: Input)
    ensures HeadIs(base, d, out) <==> d == WithHead(base, out)
  {
    if HasStack(base) && HeadIs(base, d, out) {
      assert d.stack.value == [d.stack.value[0]] + d.stack.value[1..];
    }
  }

  lemma MainForm(base: RunData, d: RunData, payload: string)
    ensures MainIs(base, d, payload) <==> d == WithMain(base, payload)
  {
    if HasStack(base) && MainIs(base, d, payload) {
      assert d.stack.value == [d.stack.value[0]] + d.stack.value[1..];
    }
  }

  lemma BringsForm(source: Source, row: RunData, d: RunData)
    ensures BringsIs(source, row, d) <==> d == Brought(source, row)
  {
    if source.Webhook? {
      MainForm(row, d, source.payload);
    }
  }

  lemma BringsIts(source: Source, row: RunData)
    ensures BringsIs(source, row, Brought(source, row))
  {
    BringsForm(source, row, Brought(source, row));
  }

  /** The output of child `i`, put into the stack head, makes a replaced head. */
  lemma ReplacedBy(sources: seq<Source>, parked: RunData, i: nat)
    requires i < |sources| && HasOutput(sources[i])
    ensures Replaced(sources, parked, WithHead(parked, sources[i].output.value))
  {
    HeadForm(parked, WithHead(parked, sources[i].output.value), sources[i].output.value);
  }

  /** Which child has replaced the head. */
  lemma Replacer(sources: seq<Source>, parked: RunData, d: RunData) returns (i: nat)
    requires Replaced(sources, parked, d)
    ensures i < |sources| && HasOutput(sources[i]) && d == WithHead(parked, sources[i].output.value)
  {
    i :| 0 <= i < |sources| && sources[i].Child? && sources[i].output.Some?
         && HeadIs(parked, d, sources[i].output.value);
    HeadForm(parked, d, sources[i].output.value);
  }

  ghost predicate AllWell(sources: seq<Source>, parked: RunData, resumed: seq<Resumption>) {
    forall k :: 0 <= k < |resumed| ==> WellResumed(sources, parked, resumed[k])
  }

  ghost predicate SameSources(s: Parent, sources: seq<Source>) {
    |s.wakers| == |sources| && forall i :: 0 <= i < |sources| ==> s.wakers[i].source == sources[i]
  }

  /** Nothing a waker holds from before could put foreign data into this episode. */
  ghost predicate NoStale(s: Parent, sources: seq<Source>)
    requires SameSources(s, sources)
  {
    forall i :: 0 <= i < |s.wakers| ==> HarmlessCopy(s, sources, i) && HarmlessRow(s, sources, i)
  }

  /** What waker `i` would write fits. */
  ghost predicate HarmlessCopy(s: Parent, sources: seq<Source>, i: nat)
    requires SameSources(s, sources) && i < |s.wakers|
  {
    s.wakers[i].phase.HasRead? && sources[i].Child? && sources[i].output.Some? ==>
      forall d :: HeadIs(s.wakers[i].phase.copy, d, sources[i].output.value) ==> Fitting(sources, s.parked, d)
  }

  /** What waker `i` would resume the parent with fits. */
  ghost predicate HarmlessRow(s: Parent, sources: seq<Source>, i: nat)
    requires SameSources(s, sources) && i < |s.wakers|
  {
    s.wakers[i].phase.HasRow? ==>
      forall d :: BringsIs(sources[i], s.wakers[i].phase.row, d) ==> WellResumed(sources, s.parked, Resumption(i, d))
  }

  lemma CopyForm(s: Parent, sources: seq<Source>, i: nat)
    requires SameSources(s, sources) && i < |s.wakers| && s.wakers[i].phase.HasRead? && HasOutput(sources[i])
    ensures HarmlessCopy(s, sources, i) <==>
            Fitting(sources, s.parked, WithHead(s.wakers[i].phase.copy, sources[i].output.value))
  {
    var copy, out := s.wakers[i].phase.copy, sources[i].output.value;
    forall d ensures HeadIs(copy, d, out) <==> d == WithHead(copy, out) {
      HeadForm(copy, d, out);
    }
  }

  lemma RowForm(s: Parent, sources: seq<Source>, i: nat)
    requires SameSources(s, sources) && i < |s.wakers| && s.wakers[i].phase.HasRow?
    ensures HarmlessRow(s, sources, i) <==>
            WellResumed(sources, s.parked, Resumption(i, Brought(sources[i], s.wakers[i].phase.row)))
  {
    var row := s.wakers[i].phase.row;
    forall d ensures BringsIs(sources[i], row, d) <==> d == Brought(sources[i], row) {
      BringsForm(sources[i], row, d);
    }
  }

  /** A row that fits is harmless in every waker's hands. */
  lemma FittingRow(s: Parent, sources: seq<Source>, i: nat)
    requires SameSources(s, sources) && i < |s.wakers| && s.wakers[i].phase.HasRow?
    requires Fitting(sources, s.parked, s.wakers[i].phase.row)
    ensures HarmlessRow(s, sources, i)
    ensures WellResumed(sources, s.parked, Resumption(i, Brought(sources[i], s.wakers[i].phase.row)))
  {
    BringsIts(sources[i], s.wakers[i].phase.row);
  }

  /** While the parent waits, every copy of its data in the row and in the wakers fits; and it is resumed
    * at most once, with data that fits. */
  ghost predicate Fits(s: Parent, sources: seq<Source>) {
    && SameSources(s, sources)
    && (s.status == Waiting ==> s.resumed == [] && Fitting(sources, s.parked, s.data) && NoStale(s, sources))
    && |s.resumed| <= 1 && AllWell(sources, s.parked, s.resumed)
  }

  lemma HeadTwice(d: RunData, a: Input, b: Input)
    ensures WithHead(WithHead(d, a), b) == WithHead(d, b)
    ensures HasStack(WithHead(d, a)) <==> HasStack(d)
  {
  }

  lemma HeadFits(sources: seq<Source>, parked: RunData, d: RunData, i: nat)
    requires Fitting(sources, parked, d) && i < |sources| && HasOutput(sources[i])
    ensures Replaced(sources, parked, WithHead(d, sources[i].output.value))
  {
    ReplacedBy(sources, parked, i);
    if d != parked {
      var j := Replacer(sources, parked, d);
      HeadTwice(parked, sources[j].output.value, sources[i].output.value);
    }
  }

  lemma NextFits(s: Parent, e: Event, sources: seq<Source>)
    requires Fits(s, sources) && Enabled(s, e) && !e.ParentParks?
    ensures Fits(Next(s, e), sources)
  {
    var r := Next(s, e);
    if s.status == Waiting {
      match e
      case Read(i) =>
        if HasOutput(sources[i]) && r.wakers[i].phase.HasRead? {
          HeadFits(sources, s.parked, s.data, i);
          CopyForm(r, sources, i);
        }
      case Write(i) => CopyForm(s, sources, i);
      case ReRead(i) =>
        if r.wakers[i].phase.HasRow? {
          FittingRow(r, sources, i);
        }
      case Claim(i) => RowForm(s, sources, i);
      case _ =>
    }
    if s.status == Waiting {
      OthersHarmless(s, e, sources);
    }
  }

  lemma OthersHarmless(s: Parent, e: Event, sources: seq<Source>)
    requires SameSources(s, sources) && Enabled(s, e) && !e.ParentParks? && NoStale(s, sources)
    ensures var r := Next(s, e);
            && SameSources(r, sources)
            && forall j :: 0 <= j < |r.wakers| && r.wakers[j] == s.wakers[j] ==>
                 HarmlessCopy(r, sources, j) && HarmlessRow(r, sources, j)
  {
    var r := Next(s, e);
    forall j | 0 <= j < |r.wakers| && r.wakers[j] == s.wakers[j]
      ensures HarmlessCopy(r, sources, j) && HarmlessRow(r, sources, j)
    {
      assert HarmlessCopy(s, sources, j) && HarmlessRow(s, sources, j);
    }
  }

  lemma {:induction false} RunFits(s: Parent, es: seq<Event>, sources: seq<Source>)
    requires Fits(s, sources) && EnabledRun(s, es) && WithinEpisode(es)
    ensures Fits(After(s, es), sources) && After(s, es).parked == s.parked
    decreases |es|
  {
    if es != [] {
      NextFits(s, es[0], sources);
      RunFits(Next(s, es[0]), es[1..], sources);
    }
  }

  /** The parent has just parked. */
  ghost predicate Parked(s: Parent, sources: seq<Source>) {
    s.status == Waiting && s.data == s.parked && s.resumed == [] && SameSources(s, sources)
  }

  /** However the episode goes on, the parent resumes well. */
  ghost predicate AlwaysWell(s: Parent, sources: seq<Source>) {
    forall es :: EnabledRun(s, es) && WithinEpisode(es) ==> AllWell(sources, s.parked, After(s, es).resumed)
  }

  lemma Prepend(s: Parent, e: Event, es: seq<Event>)
    requires Enabled(s, e) && EnabledRun(Next(s, e), es)
    ensures EnabledRun(s, [e] + es) && After(s, [e] + es) == After(Next(s, e), es)
  {
    assert ([e] + es)[1..] == es;
  }

  lemma StaleRow(s: Parent, i: nat)
    requires s.status == Waiting && s.resumed == [] && i < |s.wakers| && s.wakers[i].phase.HasRow?
    ensures EnabledRun(s, [Claim(i)])
    ensures After(s, [Claim(i)]).resumed == [Resumption(i, Brought(s.wakers[i].source, s.wakers[i].phase.row))]
  {
    Prepend(s, Claim(i), []);
    assert [Claim(i)] + [] == [Claim(i)];
  }

  lemma StaleCopy(s: Parent, i: nat)
    requires s.status == Waiting && s.resumed == [] && i < |s.wakers|
    requires s.wakers[i].phase.HasRead? && HasOutput(s.wakers[i].source)
    ensures var es := [Write(i), ReRead(i), Claim(i)];
            EnabledRun(s, es) &&
            After(s, es).resumed == [Resumption(i, WithHead(s.wakers[i].phase.copy, s.wakers[i].source.output.value))]
  {
    var s1 := Next(s, Write(i));
    var s2 := Next(s1, ReRead(i));
    StaleRow(s2, i);
    Prepend(s1, ReRead(i), [Claim(i)]);
    Prepend(s, Write(i), [ReRead(i)] + [Claim(i)]);
    assert [Write(i)] + ([ReRead(i)] + [Claim(i)]) == [Write(i), ReRead(i), Claim(i)];
  }

  /** Across episodes the write has no status guard, so what a waker kept from an earlier episode decides:
    * every way to resume a freshly parked parent gives it its parked data, or that data with the head
    * replaced by a child's output, exactly when no waker holds data that does not fit. */
  lemma ResumeDataIff(s: Parent, sources: seq<Source>)
    requires Parked(s, sources)
    ensures AlwaysWell(s, sources) <==> NoStale(s, sources)
  {
    if NoStale(s, sources) {
      forall es | EnabledRun(s, es) && WithinEpisode(es) ensures AllWell(sources, s.parked, After(s, es).resumed) {
        RunFits(s, es, sources);
      }
    }
    if AlwaysWell(s, sources) {
      forall i | 0 <= i < |s.wakers| ensures HarmlessCopy(s, sources, i) && HarmlessRow(s, sources, i) {
        if s.wakers[i].phase.HasRow? {
          StaleRow(s, i);
          RowForm(s, sources, i);
          assert WellResumed(sources, s.parked, After(s, [Claim(i)]).resumed[0]);
        } else if s.wakers[i].phase.HasRead? && HasOutput(sources[i]) {
          StaleCopy(s, i);
          CopyForm(s, sources, i);
          var d := WithHead(s.wakers[i].phase.copy, sources[i].output.value);
          assert WellResumed(sources, s.parked, After(s, [Write(i), ReRead(i), Claim(i)]).resumed[0]);
          assert Fitting(sources, s.parked, d);
        }
      }
    }
  }

  /** Child 0 reads the parent in one episode; child 1 resumes it; it parks again; and then child 0 writes. */
  function StaleRun(again: RunData): seq<Event> {
    [Read(0), Read(1), Write(1), ReRead(1), Claim(1), ParentParks(again), Write(0), ReRead(0), Claim(0)]
  }

  lemma ThreeSteps(s: Parent, e: Event, f: Event, g: Event)
    requires EnabledRun(s, [e, f, g])
    ensures Enabled(s, e) && Enabled(Next(s, e), f) && Enabled(Next(Next(s, e), f), g)
    ensures After(s, [e, f, g]) == Next(Next(Next(s, e), f), g)
  {
    assert [e, f, g][1..] == [f, g] && [f, g][1..] == [g] && [g][1..] == [];
    assert EnabledRun(Next(s, e), [f, g]) && EnabledRun(Next(Next(s, e), f), [g]);
    var r := Next(Next(Next(s, e), f), g);
    assert After(r, []) == r;
    assert After(Next(Next(s, e), f), [g]) == r;
    assert After(Next(s, e), [f, g]) == r;
  }

  lemma {:induction false} Append(s: Parent, es: seq<Event>, more: seq<Event>)
    requires EnabledRun(s, es) && EnabledRun(After(s, es), more)
    ensures EnabledRun(s, es + more) && After(s, es + more) == After(After(s, es), more)
    decreases |es|
  {
    if es == [] {
      assert [] + more == more;
    } else {
      Append(Next(s, es[0]), es[1..], more);
      assert (es + more)[1..] == es[1..] + more;
    }
  }

  lemma ChildResumes(s: Parent, first: RunData, a: Input, b: Input)
    requires HasStack(first)
    requires s == Parent(Waiting, first, [Waker(Child(Some(a)), Idle), Waker(Child(Some(b)), Idle)], 0, first, [])
    ensures var es := [Read(0), Read(1)] + [Write(1), ReRead(1), Claim(1)];
            && EnabledRun(s, es)
            && var r := After(s, es);
               r.status == Running && |r.wakers| == 2 && r.wakers[0] == Waker(Child(Some(a)), HasRead(first, 0))
  {
    var s1 := Next(s, Read(0));
    var s2, rest := Next(s1, Read(1)), [Write(1), ReRead(1), Claim(1)];
    assert s2.wakers == [Waker(Child(Some(a)), HasRead(first, 0)), Waker(Child(Some(b)), HasRead(first, 0))];
    StaleCopy(s2, 1);
    ThreeSteps(s2, Write(1), ReRead(1), Claim(1));
    Prepend(s1, Read(1), rest);
    Prepend(s, Read(0), [Read(1)] + rest);
    assert [Read(0)] + ([Read(1)] + rest) == [Read(0), Read(1)] + rest;
  }

  lemma OtherChildIntrudes(s: Parent, first: RunData, again: RunData, a: Input)
    requires s.status == Running && |s.wakers| == 2 && s.wakers[0] == Waker(Child(Some(a)), HasRead(first, 0))
    ensures var es := [ParentParks(again)] + [Write(0), ReRead(0), Claim(0)];
            && EnabledRun(s, es)
            && After(s, es).parked == again && After(s, es).resumed == [Resumption(0, WithHead(first, a))]
  {
    var s1 := Next(s, ParentParks(again));
    StaleCopy(s1, 0);
    ThreeSteps(s1, Write(0), ReRead(0), Claim(0));
    Prepend(s, ParentParks(again), [Write(0), ReRead(0), Claim(0)]);
  }

  /** How a waker comes to hold such data: in this run the parent goes on with the data of the earlier
    * episode, whatever it had parked with since. */
  lemma StaleIsReachable(first: RunData, again: RunData, a: Input, b: Input)
    requires HasStack(first)
    ensures var s := Parent(Waiting, first, [Waker(Child(Some(a)), Idle), Waker(Child(Some(b)), Idle)], 0, first, []);
            var sources := [Child(Some(a)), Child(Some(b))];
            && Parked(s, sources) && EnabledRun(s, StaleRun(again))
            && var r := After(s, StaleRun(again));
               && r.parked == again && |r.resumed| == 1 && r.resumed[0].waker == 0
               && HeadIs(first, r.resumed[0].data, a)
               && (first.rest != again.rest ==> !AllWell(sources, again, r.resumed))
  {
    var s := Parent(Waiting, first, [Waker(Child(Some(a)), Idle), Waker(Child(Some(b)), Idle)], 0, first, []);
    var before := [Read(0), Read(1)] + [Write(1), ReRead(1), Claim(1)];
    var later := [ParentParks(again)] + [Write(0), ReRead(0), Claim(0)];
    ChildResumes(s, first, a, b);
    OtherChildIntrudes(After(s, before), first, again, a);
    Append(s, before, later);
    assert before + later == StaleRun(again);
    var sources := [Child(Some(a)), Child(Some(b))];
    var r := After(s, StaleRun(again));
    HeadForm(first, r.resumed[0].data, a);
    if WellResumed(sources, again, r.resumed[0]) {
      assert r.resumed[0].data.rest == again.rest;
    }
  }

  // ---------------------------------------------------------------- any number of episodes

  /** The event uses what its waker read in an earlier episode: it writes it while the parent waits, or
    * resumes the parent with it. */
  predicate UsesStale(s: Parent, e: Event)
    requires Enabled(s, e)
  {
    s.status == Waiting &&
    match e
    case Write(i) => s.wakers[i].phase.episode != s.episode
    case Claim(i) => s.wakers[i].phase.episode != s.episode
    case _ => false
  }

  ghost predicate NeverStale(s: Parent, es: seq<Event>)
    requires EnabledRun(s, es)
    decreases |es|
  {
    es != [] ==> !UsesStale(s, es[0]) && NeverStale(Next(s, es[0]), es[1..])
  }

  /** What was read in the current episode fits it. */
  ghost predicate Current(s: Parent, sources: seq<Source>) {
    && SameSources(s, sources)
    && (s.status == Waiting ==> s.resumed == [] && Fitting(sources, s.parked, s.data))
    && |s.resumed| <= 1 && AllWell(sources, s.parked, s.resumed)
    && (forall i :: 0 <= i < |s.wakers| && s.wakers[i].phase.HasRead? ==>
          var w := s.wakers[i].phase;
          w.episode <= s.episode && (w.episode == s.episode ==> Fitting(sources, s.parked, w.copy)))
    && (forall i :: 0 <= i < |s.wakers| && s.wakers[i].phase.HasRow? ==>
          var w := s.wakers[i].phase;
          w.episode <= s.episode && (w.episode == s.episode && s.status == Waiting ==>
            Fitting(sources, s.parked, w.row)))
  }

  lemma NextCurrent(s: Parent, e: Event, sources: seq<Source>)
    requires Current(s, sources) && Enabled(s, e) && !UsesStale(s, e)
    ensures Current(Next(s, e), sources)
  {
    if e.Write? && s.status == Waiting {
      HeadFits(sources, s.parked, s.wakers[e.i].phase.copy, e.i);
    } else if e.Claim? && s.status == Waiting {
      FittingRow(s, sources, e.i);
    }
  }

  lemma {:induction false} RunCurrent(s: Parent, es: seq<Event>, sources: seq<Source>)
    requires Current(s, sources) && EnabledRun(s, es) && NeverStale(s, es)
    ensures Current(After(s, es), sources)
    decreases |es|
  {
    if es != [] {
      NextCurrent(s, es[0], sources);
      RunCurrent(Next(s, es[0]), es[1..], sources);
    }
  }

  /** Over any number of episodes and every interleaving: as long as no waker uses in one episode what it read
    * in an earlier one, the parent is resumed at most once in each, with data that fit that episode. */
  lemma EveryEpisodeWell(s: Parent, es: seq<Event>, sources: seq<Source>)
    requires Parked(s, sources) && (forall i :: 0 <= i < |s.wakers| ==> s.wakers[i].phase.Idle?)
    requires EnabledRun(s, es) && NeverStale(s, es)
    ensures var r := After(s, es); |r.resumed| <= 1 && AllWell(sources, r.parked, r.resumed)
  {
    RunCurrent(s, es, sources);
  }

  // ---------------------------------------------------------------- resumed by a child with output

  /** The waker is past its write: its child has completed and its results have been dealt with. */
  predicate PastWrite(phase: Phase) {
    !phase.Idle? && !phase.HasRead?
  }

  /** The parked data with exactly the data of the stack head replaced, by the output of a child that is past
    * its write. */
  ghost predicate ReplacedNow(s: Parent, sources: seq<Source>, d: RunData)
    requires SameSources(s, sources)
  {
    exists i :: 0 <= i < |sources| && sources[i].Child? && sources[i].output.Some? && PastWrite(s.wakers[i].phase)
                && HeadIs(s.parked, d, sources[i].output.value)
  }

  ghost predicate FittingNow(s: Parent, sources: seq<Source>, d: RunData)
    requires SameSources(s, sources)
  {
    d == s.parked || ReplacedNow(s, sources, d)
  }

  /** The parent resumed with parked data in which at most the stack head was replaced by the output of a
    * completed child, to which a webhook has added its own; and if there was a stack head and the waker is a
    * child with output, it was replaced. */
  ghost predicate ResumedNow(s: Parent, sources: seq<Source>, r: Resumption)
    requires SameSources(s, sources)
  {
    && r.waker < |sources|
    && (exists d :: FittingNow(s, sources, d) && BringsIs(sources[r.waker], d, r.data))
    && (sources[r.waker].Child? && sources[r.waker].output.Some? ==>
          s.parked.stack.None? || |s.parked.stack.value| == 0 || ReplacedNow(s, sources, r.data))
  }

  /** While the parent waits, the row and every copy of it is parked data in which at most the output of a
    * child past its write stands, and a waker with output that is past its write has left a replaced head. */
  ghost predicate Delivered(s: Parent, sources: seq<Source>) {
    && SameSources(s, sources)
    && (s.status == Waiting ==> s.resumed == [] && FittingNow(s, sources, s.data))
    && |s.resumed| <= 1 && (forall k :: 0 <= k < |s.resumed| ==> ResumedNow(s, sources, s.resumed[k]))
    && (s.status == Waiting ==> forall i :: 0 <= i < |s.wakers| ==> DeliveredBy(s, sources, i))
  }

  ghost predicate DeliveredBy(s: Parent, sources: seq<Source>, i: nat)
    requires SameSources(s, sources) && i < |s.wakers|
  {
    var phase := s.wakers[i].phase;
    && (phase.HasRead? ==> FittingNow(s, sources, phase.copy))
    && (phase.HasRow? ==> FittingNow(s, sources, phase.row))
    && (HasStack(s.parked) && HasOutput(sources[i]) ==>
          && (phase.Updated? ==> ReplacedNow(s, sources, s.data))
          && (phase.HasRow? ==> ReplacedNow(s, sources, s.data) && ReplacedNow(s, sources, phase.row))
          && !phase.Over?)
  }

  lemma StackStays(s: Parent, sources: seq<Source>, d: RunData)
    requires SameSources(s, sources) && FittingNow(s, sources, d)
    ensures HasStack(d) <==> HasStack(s.parked)
    ensures forall out :: WithHead(d, out) == WithHead(s.parked, out)
  {
    if d != s.parked {
      var i :| 0 <= i < |sources| && sources[i].Child? && sources[i].output.Some? && PastWrite(s.wakers[i].phase)
               && HeadIs(s.parked, d, sources[i].output.value);
      HeadForm(s.parked, d, sources[i].output.value);
      forall out ensures WithHead(d, out) == WithHead(s.parked, out) {
        HeadTwice(s.parked, sources[i].output.value, out);
      }
    }
  }

  /** What has replaced the head goes on to be the output of a child past its write. */
  lemma NowStays(s: Parent, r: Parent, sources: seq<Source>, d: RunData)
    requires SameSources(s, sources) && SameSources(r, sources) && r.parked == s.parked
    requires forall i :: 0 <= i < |s.wakers| && PastWrite(s.wakers[i].phase) ==> PastWrite(r.wakers[i].phase)
    ensures ReplacedNow(s, sources, d) ==> ReplacedNow(r, sources, d)
    ensures FittingNow(s, sources, d) ==> FittingNow(r, sources, d)
  {
    if ReplacedNow(s, sources, d) {
      var i :| 0 <= i < |sources| && sources[i].Child? && sources[i].output.Some? && PastWrite(s.wakers[i].phase)
               && HeadIs(s.parked, d, sources[i].output.value);
      assert PastWrite(r.wakers[i].phase);
    }
  }

  ghost predicate Later(s: Parent, r: Parent, sources: seq<Source>) {
    && SameSources(s, sources) && SameSources(r, sources) && r.parked == s.parked
    && forall i :: 0 <= i < |s.wakers| && PastWrite(s.wakers[i].phase) ==> PastWrite(r.wakers[i].phase)
  }

  lemma ResumedStays(s: Parent, r: Parent, sources: seq<Source>, x: Resumption)
    requires Later(s, r, sources) && ResumedNow(s, sources, x)
    ensures ResumedNow(r, sources, x)
  {
    var d :| FittingNow(s, sources, d) && BringsIs(sources[x.waker], d, x.data);
    NowStays(s, r, sources, d);
    NowStays(s, r, sources, x.data);
  }

  lemma ByStays(s: Parent, r: Parent, sources: seq<Source>, j: nat)
    requires Later(s, r, sources) && j < |s.wakers| && r.wakers[j] == s.wakers[j] && DeliveredBy(s, sources, j)
    requires r.data == s.data || ReplacedNow(r, sources, r.data)
    ensures DeliveredBy(r, sources, j)
  {
    NowStays(s, r, sources, s.data);
    match s.wakers[j].phase
    case HasRead(copy, _) => NowStays(s, r, sources, copy);
    case HasRow(row, _) => NowStays(s, r, sources, row);
    case _ =>
  }

  lemma NextDelivered(s: Parent, e: Event, sources: seq<Source>)
    requires Delivered(s, sources) && Enabled(s, e) && !e.ParentParks?
    ensures Delivered(Next(s, e), sources)
  {
    var r := Next(s, e);
    assert Later(s, r, sources);
    forall k | 0 <= k < |s.resumed| ensures ResumedNow(r, sources, s.resumed[k]) {
      ResumedStays(s, r, sources, s.resumed[k]);
    }
    if s.status == Waiting {
      NowStays(s, r, sources, s.data);
      StackStays(s, sources, s.data);
      if e.Claim? {
        ClaimDelivers(s, e.i, sources);
      } else if r.status == Waiting {
        MoveDelivers(s, e, sources);
      }
    }
  }

  lemma ClaimDelivers(s: Parent, i: nat, sources: seq<Source>)
    requires Delivered(s, sources) && s.status == Waiting && Enabled(s, Claim(i))
    ensures var r := Next(s, Claim(i)); ResumedNow(r, sources, Resumption(i, r.data))
  {
    assert DeliveredBy(s, sources, i);
    NowStays(s, Next(s, Claim(i)), sources, s.wakers[i].phase.row);
    BringsIts(sources[i], s.wakers[i].phase.row);
  }

  lemma MoveDelivers(s: Parent, e: Event, sources: seq<Source>)
    requires Delivered(s, sources) && s.status == Waiting && Enabled(s, e) && (e.Read? || e.Write? || e.ReRead?)
    ensures var r := Next(s, e);
            FittingNow(r, sources, r.data) && forall j :: 0 <= j < |r.wakers| ==> DeliveredBy(r, sources, j)
  {
    var r := Next(s, e);
    NowStays(s, r, sources, s.data);
    StackStays(s, sources, s.data);
    if e.Write? {
      WriteDelivers(s, e.i, sources);
    }
    assert DeliveredBy(s, sources, e.i);
    forall j | 0 <= j < |r.wakers| && j != e.i ensures DeliveredBy(r, sources, j) {
      ByStays(s, r, sources, j);
    }
  }

  lemma WriteDelivers(s: Parent, i: nat, sources: seq<Source>)
    requires Delivered(s, sources) && s.status == Waiting && Enabled(s, Write(i))
    ensures ReplacedNow(Next(s, Write(i)), sources, Next(s, Write(i)).data)
  {
    assert DeliveredBy(s, sources, i);
    StackStays(s, sources, s.wakers[i].phase.copy);
    HeadForm(s.parked, Next(s, Write(i)).data, sources[i].output.value);
  }

  lemma {:induction false} RunDelivered(s: Parent, es: seq<Event>, sources: seq<Source>)
    requires Delivered(s, sources) && EnabledRun(s, es) && WithinEpisode(es)
    ensures Delivered(After(s, es), sources) && After(s, es).parked == s.parked
    decreases |es|
  {
    if es != [] {
      NextDelivered(s, es[0], sources);
      RunDelivered(Next(s, es[0]), es[1..], sources);
    }
  }

  /** Within one episode that no waker entered early, under every interleaving: the parent is resumed at
    * most once; it resumes with its parked data or with these and exactly the stack head replaced by the
    * output of a child that has completed and written; and when a child that carries output resumes a parent
    * with something on its stack, the head is replaced. */
  lemma ResumedOnceWithChildOutput(s: Parent, es: seq<Event>, sources: seq<Source>)
    requires Parked(s, sources) && (forall i :: 0 <= i < |s.wakers| ==> s.wakers[i].phase.Idle?)
    requires EnabledRun(s, es) && WithinEpisode(es)
    ensures var r := After(s, es);
            && |r.resumed| <= 1 && SameSources(r, sources) && r.parked == s.parked
            && forall k :: 0 <= k < |r.resumed| ==> ResumedNow(r, sources, r.resumed[k])
  {
    RunDelivered(s, es, sources);
  }

  // ---------------------------------------------------------------- a waker that nothing interrupts

  /** What waker `i` does: a child with output updates the row first, if the parent has a node on its stack. */
  function Course(s: Parent, i: nat): seq<Event>
    requires i < |s.wakers|
  {
    if s.wakers[i].source.Child? && s.wakers[i].source.output.Some? && s.data.stack.Some? && |s.data.stack.value| > 0
    then [Read(i)] + [Write(i), ReRead(i), Claim(i)]
    else [Read(i)] + ([ReRead(i)] + [Claim(i)])
  }

  /** Any waker that nothing interrupts resumes a waiting parent: a child with its output in the stack head and
    * nothing else changed, a webhook with its payload as the main data of the head and nothing else changed,
    * and any other with the data of the row. */
  lemma UninterruptedWakerResumes(s: Parent, i: nat)
    requires s.status == Waiting && s.resumed == [] && i < |s.wakers| && s.wakers[i].phase.Idle?
    requires s.wakers[i].source.Webhook? ==> s.data.stack.Some? && |s.data.stack.value| > 0
    ensures EnabledRun(s, Course(s, i))
    ensures var r := After(s, Course(s, i));
            && r.status == Running && i < |r.wakers| && r.wakers[i].phase == Over(true)
            && r.resumed == [Resumption(i, r.data)]
            && match s.wakers[i].source
               case Child(Some(out)) => HeadIs(s.data, r.data, out)
               case Webhook(payload) => MainIs(s.data, r.data, payload)
               case _ => r.data == s.data
  {
    var s1, source := Next(s, Read(i)), s.wakers[i].source;
    if HasOutput(source) && HasStack(s.data) {
      StaleCopy(s1, i);
      ThreeSteps(s1, Write(i), ReRead(i), Claim(i));
      Prepend(s, Read(i), [Write(i), ReRead(i), Claim(i)]);
      HeadForm(s.data, WithHead(s.data, source.output.value), source.output.value);
    } else {
      var s2 := Next(s1, ReRead(i));
      StaleRow(s2, i);
      assert After(s2, [Claim(i)]) == Next(s2, Claim(i)) by { Prepend(s2, Claim(i), []); }
      Prepend(s1, ReRead(i), [Claim(i)]);
      Prepend(s, Read(i), [ReRead(i)] + [Claim(i)]);
      BringsIts(source, s.data);
    }
  }

  /** A waker gives up on reading the row exactly when the parent has finished, or when it is a webhook and the
    * parent is running or has no node to take its data; any other goes on with the row as it stands. */
  lemma GivesUpIff(s: Parent, i: nat)
    requires Enabled(s, ReRead(i))
    ensures var r, source := Next(s, ReRead(i)), s.wakers[i].source;
            && |r.wakers| == |s.wakers| && r.data == s.data && r.status == s.status
            && r.wakers[i].phase ==
               if s.status == Finished then Over(false)
               else if source.Webhook? && (s.status == Running || s.data.stack.None? || |s.data.stack.value| == 0)
               then Over(false)
               else HasRow(s.data, s.episode)
  {
  }
}
