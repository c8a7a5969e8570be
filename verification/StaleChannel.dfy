/** clh_recv_ (clh.c:575-594) never writes the channel of its request, and
    process_recv_queue_ (clh.c:287) picks the list to search by it. The engine
    runs with whatever the node holds, as the code does; here is exactly when
    that shows. */
module StaleChannel {
  import opened Protocol
  import opened Sequences
  import opened Matching
  import opened Engine
  import opened Delivery
  import opened Messages
  import opened Refinement
  import opened Invariant
  import opened Passes

  // ----- one step -----

  /** The one queue can make the step's move, and is related to the engine
      after it. */
  ghost predicate Stays(s: State, step: Step, q: Queue)
    requires Enabled(s, step)
  {
    QAllows(q, LabelOf(s, step)) && Refines(Apply(s, step).index, QMove(q, LabelOf(s, step)))
  }

  /** No stored message is also in the transport. */
  lemma StoredOnly(s: State, c: nat, m: Message)
    requires MessagesConserved(s) && Numbered(s) && c < |s.index.lists| && m in s.index.lists[c]
    ensures m !in s.index.unexpected
  {
    hide Sum, GivenCount;
    SumHas(s.index.lists, c, Contents);
    assert Contents(s.index.lists[c])[m] <= Sum(s.index.lists, Contents)[m];
    ArrivedOnce(s, m);
    assert MessageCount(s, m) == multiset(s.arrived)[m];
  }

  /** A wrong list is searched while the right one holds m: the receive is not
      given m, and m stays where it is. */
  lemma HarmDone(x: Index, t: nat, c: nat, want: Selector)
    requires Shaped(x) && Filed(x) && c < MAX_CHANNELS && OneChannel(want) && t !in x.given
    requires c != Chan(want.tag) && HasMatch(x.lists[Chan(want.tag)], want)
    ensures var m, x' := x.lists[Chan(want.tag)][FirstMatch(x.lists[Chan(want.tag)], want)], Post(x, t, c, want);
            && x'.lists == x.lists
            && (m !in x.unexpected && t in x'.given ==> x'.given[t] != m)
            && (if HasMatch(x.unexpected, want) then t in x'.given else t !in x'.given && Posted(t, want) in x'.posted)
  {
    hide TagMatches, Chan, OneChannel, FirstMatch, Filed;
    WrongListHasNoMatch(x, c, want);
    var i := FirstMatch(x.unexpected, want);
    if i < |x.unexpected| {
      assert x.unexpected[i] in x.unexpected;
    } else {
      assert Last(Post(x, t, c, want).posted) in Post(x, t, c, want).posted;
    }
  }

  lemma TurnIsPost(s: State)
    requires Enabled(s, PostNext) && s.batch[0].body.msg == None
    ensures var r := s.batch[0];
            && DoPostNext(s).index == Post(s.index, r.ticket, r.fields.channel as nat, r.body.want)
            && LabelOf(s, PostNext) == LPost(r.ticket, r.body.want)
  {
    hide Post, Matched;
  }

  lemma NotRelated(x: Index, q: Queue, t: nat)
    requires t in q.given && (t in x.given ==> x.given[t] != q.given[t])
    ensures !Refines(x, q)
  {
  }

  /** A harmful turn leaves the one queue: the receive is given another message
      or waits, while its own message stays in its list. */
  lemma HarmfulTurn(s: State, q: Queue)
    requires Inv(s) && Enabled(s, PostNext) && Refines(s.index, q) && !Harmless(s, PostNext)
    ensures !Stays(s, PostNext, q)
    ensures var r := s.batch[0];
            var l := s.index.lists[Chan(r.body.want.tag)];
            var m, x' := l[FirstMatch(l, r.body.want)], DoPostNext(s).index;
            && m in x'.lists[Chan(r.body.want.tag)]
            && (if HasMatch(s.index.unexpected, r.body.want) then r.ticket in x'.given && x'.given[r.ticket] != m
                else !NothingMissed(x'))
  {
    hide Chan, OneChannel, FirstMatch, Filed, DecodeTag, Refines, MessagesConserved, Numbered, DoPostNext, Post,
      TicketFacts, LogRight, GivenMatch, LabelOf, QPost, SomeRecv;
    var r := s.batch[0];
    assert r in s.batch;
    var want := r.body.want;
    var k := Chan(want.tag);
    var l := s.index.lists[k];
    var m := l[FirstMatch(l, want)];
    assert m in l;
    ChannelsDiffer(r);
    HeadFreshHere(s);
    StoredOnly(s, k, m);
    TurnIsPost(s);
    HarmDone(s.index, r.ticket, r.fields.channel as nat, want);
    QueueGives(s.index, q, r.ticket, want);
    var x' := DoPostNext(s).index;
    NotRelated(x', QPost(q, r.ticket, want), r.ticket);
    if !HasMatch(s.index.unexpected, want) {
      MissedThere(x', r.ticket, want);
    }
  }

  lemma ChannelsDiffer(r: Request)
    requires r.body.RecvBody? && !RightChannel(r)
    ensures r.fields.channel as nat != Chan(r.body.want.tag)
  {
  }

  lemma HeadFreshHere(s: State)
    requires Inv(s) && s.batch != [] && s.batch[0].body.RecvBody?
    ensures s.batch[0].ticket !in s.index.given
  {
    hide Typed, LogRight, GivenMatch, MessagesConserved;
    HeadFresh(s);
  }

  /** The one queue gives the receive the first match of the right list. */
  lemma QueueGives(x: Index, q: Queue, t: nat, want: Selector)
    requires Refines(x, q) && OneChannel(want) && HasMatch(x.lists[Chan(want.tag)], want)
    ensures var l := x.lists[Chan(want.tag)];
            t in QPost(q, t, want).given && QPost(q, t, want).given[t] == l[FirstMatch(l, want)]
  {
    hide TagMatches, Chan, OneChannel, FirstMatch, Refines;
    TakeRefines(x, q, want);
  }

  lemma MissedThere(x: Index, t: nat, want: Selector)
    requires Shaped(x) && Posted(t, want) in x.posted && HasMatch(x.lists[Chan(want.tag)], want)
    ensures !NothingMissed(x)
  {
    hide TagMatches, Chan;
    var l := x.lists[Chan(want.tag)];
    assert l[FirstMatch(l, want)] in l;
  }

  /** A step stays with the one queue exactly when it is harmless. */
  lemma StaysExact(s: State, step: Step, q: Queue)
    requires Inv(s) && Enabled(s, step) && Refines(s.index, q)
    ensures Stays(s, step, q) <==> Harmless(s, step)
  {
    hide Refines, LabelOf, QMove, Apply, Enabled, Harmless;
    if Harmless(s, step) {
      InvTyped(s);
      StepRefines(s, step, q);
    } else {
      OnlyPosting(s, step);
      HarmfulTurn(s, q);
    }
  }

  lemma InvTyped(s: State)
    requires Inv(s)
    ensures Typed(s)
  {
  }

  lemma OnlyPosting(s: State, step: Step)
    requires Enabled(s, step) && !Harmless(s, step)
    ensures step == PostNext
  {
  }

  /** The next receive's turn, whatever the node's 32-bit channel is: it is
      defined and does what it should exactly when the channel is the right
      one, or names a list at all and the right list holds no match. */
  lemma StaleTurnExact(s: State, q: Queue)
    requires Inv(s) && !s.exited && s.batch != [] && s.batch[0].body.RecvBody? && Refines(s.index, q)
    requires s.batch[0].body.msg == None
    ensures var r := s.batch[0];
            Enabled(s, PostNext) && Stays(s, PostNext, q)
            <==> RightChannel(r)
                 || (r.fields.channel < 0x100 && !HasMatch(s.index.lists[Chan(r.body.want.tag)], r.body.want))
  {
    hide Refines, LabelOf, QMove, Apply, Stays, HasMatch, DecodeTag;
    InvTyped(s);
    SmallChannel(s.batch[0].body.want.tag);
    if s.batch[0].fields.channel < 0x100 {
      StaysExact(s, PostNext, q);
    }
  }

  // ----- whole runs -----

  ghost predicate StaysAlong(s: State, steps: seq<Step>, q: Queue)
    requires CanRun(s, steps)
    decreases |steps|
  {
    steps != [] ==>
      && Stays(s, steps[0], q)
      && StaysAlong(Apply(s, steps[0]), steps[1..], QMove(q, LabelOf(s, steps[0])))
  }

  /** A run stays with the one queue all along exactly when it is harmless. */
  lemma {:induction false} StaysAlongExact(s: State, steps: seq<Step>, q: Queue)
    requires Inv(s) && CanRun(s, steps) && Refines(s.index, q)
    ensures StaysAlong(s, steps, q) <==> HarmlessRun(s, steps)
    decreases |steps|
  {
    hide Inv, Refines, LabelOf, QMove, Apply, Enabled, Harmless;
    if steps != [] {
      StaysExact(s, steps[0], q);
      if Harmless(s, steps[0]) {
        InvKept(s, steps[0]);
        StaysAlongExact(Apply(s, steps[0]), steps[1..], QMove(q, LabelOf(s, steps[0])));
      }
    }
  }

  // ----- a run that gets there -----

  const FIRST: Message := Message(0, 0, 4)                         // on channel 0
  const SECOND: Message := Message(1, 0x0100_0000_0000_0000, 4)    // on channel 1

  /** A receive on channel 0 is given a message and completes. */
  function FirstUse(junk: Fields): seq<Step> {
    [Recv(AnySource(0, 0, 0), junk), Drain, PostNext, Arrival(FIRST), Complete(0)]
  }

  /** The request is released; a message comes on channel 1 and is stored; a
      receive on channel 1 is queued, on a node that holds `left`. */
  function SecondUse(left: Fields): seq<Step> {
    [Release(0), Arrival(SECOND), PullOne, Recv(AnySource(1, 0, 0), left), Drain]
  }

  lemma RunStep(s: State, steps: seq<Step>)
    requires steps != [] && Enabled(s, steps[0]) && CanRun(Apply(s, steps[0]), steps[1..])
    ensures CanRun(s, steps) && Run(s, steps) == Run(Apply(s, steps[0]), steps[1..])
  {
  }

  lemma EmptyRun(s: State)
    ensures CanRun(s, []) && Run(s, []) == s
  {
  }

  // The states on the way. In all of them e is the start without the node k,
  // which the first receive takes.

  predicate Blank(e: State) {
    e == Empty().(home := e.home, free := e.free)
  }

  function Served(k: nat): Request {
    Request(k, RecvKind, true, DecodeTag(FIRST.tag), RecvBody(AnySource(0, 0, 0), None), 0)
  }

  /** Where the first use ends. */
  function Used(e: State, k: nat): State {
    e.(user := [Served(k)], index := e.index.(given := map[0 := FIRST]), arrived := [FIRST], tickets := 1,
       log := [Completion(Served(k), Some(FIRST))])
  }

  function Queued(e: State, k: nat, junk: Fields): State {
    e.(batch := [Request(k, RecvKind, false, junk, RecvBody(AnySource(0, 0, 0), None), 0)], tickets := 1)
  }

  function Waiting(e: State, k: nat, junk: Fields): State {
    e.(ops := [Request(k, RecvKind, false, junk, RecvBody(AnySource(0, 0, 0), None), 0)],
       index := e.index.(posted := [Posted(0, AnySource(0, 0, 0))]), tickets := 1)
  }

  lemma FirstQueues(b: State, junk: Fields)
    requires Blank(b)
    ensures var q := FirstUse(junk);
            && CanRun(b, q[..2])
            && Run(b, q[..2]) == Queued(AfterNew(b, RecvKind), NodeFor(b, RecvKind), junk)
  {
    hide TagMatches, DecodeTag, OneChannel, AnySource, AfterNew, NodeFor;
    AlwaysOneChannel(0, 0, 0, 0);
    var q := FirstUse(junk);
    var s1 := Apply(b, q[0]);
    var s2 := Apply(s1, q[1]);
    assert s2 == Queued(AfterNew(b, RecvKind), NodeFor(b, RecvKind), junk);
    EmptyRun(s2);
    RunStep(s1, [q[1]]); RunStep(b, q[..2]);
  }

  lemma ThenPosts(e: State, k: nat, junk: Fields)
    requires Blank(e) && junk.channel < 0x100
    ensures Enabled(Queued(e, k, junk), PostNext) && Apply(Queued(e, k, junk), PostNext) == Waiting(e, k, junk)
  {
    hide TagMatches, DecodeTag, OneChannel, AnySource, HasMatch, FirstMatch, Post, Matched, DoPostNext;
    var s := Queued(e, k, junk);
    EmptyLists(junk.channel as nat);
    NothingToFind(s.index, 0, junk.channel as nat, AnySource(0, 0, 0));
    NothingMatched(s);
    assert s.batch[1..] == [] && s.ops + [s.batch[0]] == [s.batch[0]];
  }

  lemma EmptyLists(c: nat)
    requires c < MAX_CHANNELS
    ensures Empty().index.lists[c] == []
  {
  }

  lemma NothingToFind(x: Index, t: nat, c: nat, want: Selector)
    requires Shaped(x) && c < MAX_CHANNELS && x.lists[c] == [] && x.unexpected == [] && x.posted == []
    ensures !HasMatch(x.lists[c], want) && Post(x, t, c, want) == x.(posted := [Posted(t, want)])
  {
    hide TagMatches;
  }

  lemma NothingMatched(s: State)
    requires Enabled(s, PostNext) && s.batch[0].body.msg == None
    requires !HasMatch(s.index.lists[s.batch[0].fields.channel as nat], s.batch[0].body.want)
    ensures var r := s.batch[0];
            DoPostNext(s) == s.(batch := s.batch[1..], ops := s.ops + [r],
                                index := Post(s.index, r.ticket, r.fields.channel as nat, r.body.want))
  {
    hide HasMatch, FirstMatch, DecodeTag, Post;
  }

  lemma ThenCompletes(e: State, k: nat, junk: Fields)
    requires Blank(e)
    ensures var q := FirstUse(junk);
            && CanRun(Waiting(e, k, junk), q[3..]) && Run(Waiting(e, k, junk), q[3..]) == Used(e, k)
  {
    hide TagMatches, DecodeTag, OneChannel, AnySource;
    AnySourceMeaning(FIRST.tag, 0, 0, 0);
    TagOfFirst();
    var q := FirstUse(junk);
    var s4 := Apply(Waiting(e, k, junk), q[3]);
    assert s4.index.given == map[0 := FIRST];
    var s5 := Apply(s4, q[4]);
    assert s5 == Used(e, k);
    EmptyRun(s5);
    RunStep(s4, q[4..]); RunStep(Waiting(e, k, junk), q[3..]);
  }

  lemma FirstUseRuns(b: State, junk: Fields)
    requires Blank(b) && junk.channel < 0x100
    ensures CanRun(b, FirstUse(junk))
    ensures Run(b, FirstUse(junk)) == Used(AfterNew(b, RecvKind), NodeFor(b, RecvKind))
  {
    hide Waiting, Queued, Used, Apply, Enabled, NodeFor;
    var e, k := AfterNew(b, RecvKind), NodeFor(b, RecvKind);
    FirstQueues(b, junk);
    ThenPosts(e, k, junk);
    ThenCompletes(e, k, junk);
    var q := FirstUse(junk);
    RunStep(Queued(e, k, junk), q[2..]);
    RunsJoin(b, q[..2], q[2..]);
    assert q == q[..2] + q[2..];
  }

  lemma TagOfFirst()
    ensures DecodeTag(FIRST.tag) == Fields(0, 0, 0)
  {
  }

  lemma TagOfSecond()
    ensures DecodeTag(SECOND.tag) == Fields(1, 0, 0) && Chan(SECOND.tag) == 1
    ensures DecodeTag(AnySource(1, 0, 0).tag).channel == 1 && Chan(AnySource(1, 0, 0).tag) == 1
    ensures TagMatches(SECOND.tag, AnySource(1, 0, 0))
  {
    SelectorsPinChannel(1, 0, 0, 0);
    AnySourceMeaning(SECOND.tag, 1, 0, 0);
  }

  /** The node heads the pool of the receives. */
  function Back(e: State, k: nat): Pools {
    WithFree(e.free, RecvKind, [k] + e.free.recv)
  }

  /** The message is stored and the node is free again. */
  function Stored(e: State, k: nat): State {
    Used(e, k).(user := [], free := Back(e, k), arrived := [FIRST, SECOND],
                index := Used(e, k).index.(lists := Empty().index.lists[1 := [SECOND]]))
  }

  function Arrived(e: State, k: nat): State {
    Used(e, k).(user := [], free := Back(e, k), arrived := [FIRST, SECOND],
                index := Used(e, k).index.(unexpected := [SECOND]))
  }

  lemma SecondArrives(e: State, k: nat)
    requires Blank(e)
    ensures var q := SecondUse(Served(k).fields);
            && CanRun(Used(e, k), q[..2]) && Run(Used(e, k), q[..2]) == Arrived(e, k)
  {
    hide TagMatches, DecodeTag, OneChannel, AnySource, Chan;
    var q := SecondUse(Served(k).fields);
    var s1 := Apply(Used(e, k), q[0]);
    assert s1.free == Back(e, k) && s1.dropped == [];
    var s2 := Apply(s1, q[1]);
    assert s2.index.unexpected == [SECOND] && s2.arrived == [FIRST, SECOND] && s2 == Arrived(e, k);
    EmptyRun(s2);
    RunStep(s1, [q[1]]); RunStep(Used(e, k), q[..2]);
  }

  lemma SecondIsPulled(e: State, k: nat)
    requires Blank(e)
    ensures Enabled(Arrived(e, k), PullOne) && Apply(Arrived(e, k), PullOne) == Stored(e, k)
  {
    hide DecodeTag, Chan, Served, Back;
    TagOfSecond();
    var s := Apply(Arrived(e, k), PullOne);
    EmptyLists(1);
    assert Empty().index.lists[1] + [SECOND] == [SECOND] && [SECOND][1..] == [];
    assert s.index.lists == Empty().index.lists[1 := [SECOND]];
  }

  /** Where the second use ends. */
  function Reused(e: State, k: nat): State {
    Stored(e, k).(free := e.free, tickets := 2,
                  batch := [Request(k, RecvKind, false, Served(k).fields, RecvBody(AnySource(1, 0, 0), None), 1)])
  }

  lemma TakenAgain(e: State, k: nat)
    ensures NodeFor(Stored(e, k), RecvKind) == k
    ensures AfterNew(Stored(e, k), RecvKind) == Stored(e, k).(free := e.free)
  {
    hide Served;
    assert ([k] + e.free.recv)[1..] == e.free.recv;
  }

  lemma SecondQueues(e: State, k: nat)
    requires Blank(e)
    ensures var q := SecondUse(Served(k).fields);
            && CanRun(Stored(e, k), q[3..]) && Run(Stored(e, k), q[3..]) == Reused(e, k)
  {
    hide TagMatches, DecodeTag, OneChannel, AnySource, Chan, Served, AfterNew, NodeFor;
    AlwaysOneChannel(1, 0, 0, 0);
    TakenAgain(e, k);
    var q := SecondUse(Served(k).fields);
    var s4 := Apply(Stored(e, k), q[3]);
    var s5 := Apply(s4, q[4]);
    assert s5 == Reused(e, k);
    EmptyRun(s5);
    RunStep(s4, q[4..]); RunStep(Stored(e, k), q[3..]);
  }

  lemma SecondUseRuns(e: State, k: nat)
    requires Blank(e)
    ensures CanRun(Used(e, k), SecondUse(Served(k).fields))
    ensures Run(Used(e, k), SecondUse(Served(k).fields)) == Reused(e, k)
  {
    hide Used, Arrived, Stored, Reused, Served, Apply, Enabled;
    SecondArrives(e, k);
    SecondIsPulled(e, k);
    SecondQueues(e, k);
    var q := SecondUse(Served(k).fields);
    RunStep(Arrived(e, k), q[2..]);
    RunsJoin(Used(e, k), q[..2], q[2..]);
    assert q == q[..2] + q[2..];
  }

  /** From every start: whatever the node held, the receive that reuses it with
      what the released request left in it waits beside its message. */
  lemma StaleChannelRun(n: nat, junk: Fields)
    requires junk.channel < 0x100
    ensures CanRun(Start(n), FirstUse(junk)) && |Run(Start(n), FirstUse(junk)).user| == 1
    ensures var s1 := Run(Start(n), FirstUse(junk));
            && CanRun(s1, SecondUse(s1.user[0].fields))
            && (var s := Run(s1, SecondUse(s1.user[0].fields));
                && |s.batch| == 1 && s.batch[0].node == s1.user[0].node
                && Enabled(s, PostNext) && !Harmless(s, PostNext)
                && !NothingMissed(Apply(s, PostNext).index))
  {
    hide Run, CanRun, TagMatches, OneChannel, AnySource, Chan, FirstUse, SecondUse, Enabled, Harmless, NothingMissed,
      Start, NodeFor;
    StartBlank(n);
    var e, k := AfterNew(Start(n), RecvKind), NodeFor(Start(n), RecvKind);
    FirstUseRuns(Start(n), junk);
    SecondUseRuns(e, k);
    StuckThere(e, k);
  }

  lemma StuckThere(e: State, k: nat)
    requires Blank(e)
    ensures Enabled(Reused(e, k), PostNext) && !Harmless(Reused(e, k), PostNext)
    ensures !NothingMissed(Apply(Reused(e, k), PostNext).index)
  {
    hide TagMatches, OneChannel, AnySource, Chan, DecodeTag;
    TagOfFirst();
    TagOfSecond();
    EmptyLists(0);
    var s := Reused(e, k);
    assert s.index.lists[0] == [] && s.index.lists[1] == [SECOND];
    var x := Apply(s, PostNext).index;
    assert x.posted == [Posted(1, AnySource(1, 0, 0))];
    assert SECOND in x.lists[1] && Posted(1, AnySource(1, 0, 0)) in x.posted;
  }
}
