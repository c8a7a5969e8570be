/** What the engine guarantees over whole runs. */
module Guarantees {
  import opened Protocol
  import opened Sequences
  import opened Matching
  import opened Engine
  import opened Conservation
  import opened Delivery
  import opened Messages
  import opened Refinement
  import opened Invariant
  import opened Passes
  import opened StaleChannel

  /** s is the end of some run from the start. */
  ghost predicate Reachable(s: State) {
    exists capacity: nat, steps :: CanRun(Start(capacity), steps) && Run(Start(capacity), steps) == s
  }

  lemma ReachableInv(s: State)
    requires Reachable(s)
    ensures Inv(s)
  {
    hide Inv, CanRun, Run, Start;
    var n: nat, steps :| CanRun(Start(n), steps) && Run(Start(n), steps) == s;
    StartInv(n);
    RunInv(Start(n), steps);
  }

  lemma StartPlain(n: nat)
    ensures Start(n).index == Empty().index && Start(n).batch == [] && Start(n).recvQ == [] && !Start(n).exited
  {
    StartBlank(n);
  }

  // ----- matching -----

  function NoTraffic(): Queue {
    Queue([], [], map[])
  }

  lemma StartRefines(n: nat)
    ensures Refines(Start(n).index, NoTraffic()) && Typed(Start(n)) && NoMissedMatch(NoTraffic())
  {
    hide Start;
    StartInv(n);
    StartPlain(n);
    EmptyRefines();
  }

  /** Every run of the engine stays with a single arrival-ordered first-match
      queue, giving every receive what the queue gives it, if and only if it
      never looks a receive up in a wrong list while the right one holds its
      message. Such a run leaves no match missed. */
  lemma EngineIsOneQueue(n: nat, steps: seq<Step>)
    requires CanRun(Start(n), steps)
    ensures StaysAlong(Start(n), steps, NoTraffic()) <==> HarmlessRun(Start(n), steps)
    ensures HarmlessRun(Start(n), steps) ==>
              && QCanRun(NoTraffic(), LabelsOf(Start(n), steps))
              && Refines(Run(Start(n), steps).index, QRun(NoTraffic(), LabelsOf(Start(n), steps)))
              && NothingMissed(Run(Start(n), steps).index)
  {
    hide Start, CanRun, Run, LabelsOf, QCanRun, QRun, NothingMissed, Typed, Refines, NoMissedMatch, HarmlessRun,
      StaysAlong, Inv;
    StartRefines(n);
    StartInv(n);
    StaysAlongExact(Start(n), steps, NoTraffic());
    if HarmlessRun(Start(n), steps) {
      RunRefines(Start(n), steps, NoTraffic());
    }
  }

  /** What the interface means: every node handed to clh_recv_ already holds the
      channel of the tag. */
  predicate ChannelsSet(steps: seq<Step>) {
    forall i | 0 <= i < |steps| ::
      steps[i].Recv? ==> steps[i].left.channel == DecodeTag(steps[i].want.tag).channel
  }

  lemma {:induction false} ChannelsSetHarmless(s: State, steps: seq<Step>)
    requires CanRun(s, steps) && Inv(s) && AllRight(s) && ChannelsSet(steps)
    ensures HarmlessRun(s, steps)
    decreases |steps|
  {
    hide Inv, Apply, Enabled, AllRight, Harmless, Typed;
    if steps != [] {
      InvTyped(s);
      AllRightKept(s, steps[0]);
      RightIsHarmless(s, steps[0]);
      InvKept(s, steps[0]);
      ChannelsSetHarmless(Apply(s, steps[0]), steps[1..]);
    }
  }

  /** With the channels that the interface means, every run is harmless. */
  lemma IntendedRunsAreHarmless(n: nat, steps: seq<Step>)
    requires CanRun(Start(n), steps) && ChannelsSet(steps)
    ensures HarmlessRun(Start(n), steps)
  {
    hide Start, CanRun, HarmlessRun, Inv, ChannelsSet;
    StartInv(n);
    StartPlain(n);
    ChannelsSetHarmless(Start(n), steps);
  }

  /** A probe looks at the lists only. Its answer is the one queue's answer
      exactly when it hits or the transport holds no match either. */
  lemma ProbeAnswer(x: Index, q: Queue, want: Selector)
    requires Refines(x, q) && OneChannel(want)
    ensures var list := x.lists[Chan(want.tag)];
            (HasMatch(list, want) <==> HasMatch(q.waiting, want))
            <==> (HasMatch(list, want) || !HasMatch(x.unexpected, want))
  {
    hide TagMatches, Chan, OneChannel, FirstMatch, OnChannel;
    var k := Chan(want.tag);
    HasMatchOnChannel(q.waiting, want);
    HasMatchOnChannel(x.unexpected, want);
    if HasMatch(x.lists[k], want) {
      FirstMatchInLeft(x.lists[k], OnChannel(x.unexpected, k), want);
    } else {
      FirstMatchInRight(x.lists[k], OnChannel(x.unexpected, k), want);
    }
  }

  /** A probe that misses: its message is in the transport, not pulled yet. */
  lemma ProbeMisses()
    ensures var m, want := Message(0, 0, 4), AnySource(0, 0, 0);
            var x := Arrive(Empty().index, m);
            && Refines(x, Queue([m], [], map[])) && HasMatch([m], want)
            && !HasMatch(x.lists[Chan(want.tag)], want)
  {
    hide TagMatches, OneChannel, DecodeTag, AnySource, Chan;
    var m, want := Message(0, 0, 4), AnySource(0, 0, 0);
    AnySourceMeaning(m.tag, 0, 0, 0);
    TagOfFirst();
    EmptyRefines();
    ArriveRefines(Empty().index, NoTraffic(), m);
    assert QArrive(NoTraffic(), m) == Queue([m], [], map[]);
    assert Empty().index.lists[Chan(want.tag)] == [];
  }

  lemma EmptyRefines()
    ensures Refines(Empty().index, NoTraffic())
  {
  }

  // ----- messages -----

  /** Every arrived message is in exactly one place. */
  lemma MessageInOnePlace(s: State, i: nat)
    requires Reachable(s) && i < |s.arrived|
    ensures MessageCount(s, s.arrived[i]) == 1
  {
    hide MessageCount, Reachable;
    ReachableInv(s);
    CountOfArrived(s, i);
    assert MessageCount(s, s.arrived[i]) == multiset(s.arrived)[s.arrived[i]];
  }

  /** Two receives are never given the same message, and a message that was
      given away is in no list and not in the transport. */
  lemma GivenToOne(s: State, t: nat, u: nat)
    requires Reachable(s) && t in s.index.given && u in s.index.given && t != u
    ensures s.index.given[t] != s.index.given[u]
  {
    hide Reachable, Typed, LogRight, GivenMatch;
    ReachableInv(s);
    var m := s.index.given[t];
    GivenIsTicket(s, t);
    GivenIsTicket(s, u);
    GivenOnce(s.index.given, s.tickets, t);
    if m == s.index.given[u] {
      GivenTwice(s.index.given, s.tickets, if t < u then t else u, if t < u then u else t);
    }
    ArrivedOnce(s, m);
    assert MessageCount(s, m) == multiset(s.arrived)[m];
  }

  // ----- nodes, window, completion data -----

  /** Every allocated request node is in exactly one collection, and a node in
      a free list is in the list of its own pool: a probe's node is back among
      the probes even after it served as a receive. */
  lemma NodeInOnePlace(s: State, n: nat)
    requires Reachable(s)
    ensures NodeCount(s, n) == if n < |s.home| then 1 else 0
    ensures forall k | n in FreeOf(s.free, k) :: n < |s.home| && s.home[n] == k
    ensures forall r | r in s.sendQ + s.recvQ + s.batch + s.ops + s.user ::
              r.node < |s.home| && s.home[r.node] == r.kind
  {
    hide Reachable, Typed, LogRight, GivenMatch, NodeCount;
    ReachableInv(s);
    forall k | n in FreeOf(s.free, k)
      ensures n < |s.home| && s.home[n] == k
    {
      assert PoolAtHome(s.home, FreeOf(s.free, k), k);
    }
  }

  /** The send counter is exact and the window is never exceeded. */
  lemma SendWindowHolds(s: State)
    requires Reachable(s)
    ensures s.sendCount == Sum(s.ops, KindOf)[SendKind]
    ensures 0 <= s.sendCount <= 1024
  {
    hide Reachable, Typed;
    ReachableInv(s);
  }

  /** However a receive came by its message, its completed request shows the
      channel, sender and tag of that message, which matches what it asked for. */
  lemma CompletionData(s: State, c: Completion)
    requires Reachable(s) && c in s.log && c.request.body.RecvBody?
    ensures c.message.Some?
    ensures c.request.fields == DecodeTag(c.message.value.tag)
    ensures TagMatches(c.message.value.tag, c.request.body.want)
    ensures c.request.ticket in s.index.given && s.index.given[c.request.ticket] == c.message.value
  {
    hide Reachable, Typed;
    ReachableInv(s);
  }

  /** A queued receive that is out of bounds stays queued. */
  lemma StaysOut(s: State, step: Step)
    requires Enabled(s, step) && !InBounds(s)
    ensures !InBounds(Apply(s, step))
  {
    hide DecodeTag, EncodeTag, HasMatch, FirstMatch, Probed, Take, FreeOf, WithFree, NodeFor, Post, Matched, Pull,
      OneChannel, AfterNew;
    if r :| r in s.recvQ && r.fields.channel >= 0x100 {
      assert r in Apply(s, step).recvQ + Apply(s, step).batch;
    } else {
      var r :| r in s.batch && r.fields.channel >= 0x100;
      assert r in Apply(s, step).batch;
    }
  }

  /** The left-over channels of all receives name lists. */
  predicate SmallChannels(steps: seq<Step>) {
    forall i | 0 <= i < |steps| :: steps[i].Recv? ==> steps[i].left.channel < 0x100
  }

  lemma {:induction false} InBoundsRun(s: State, steps: seq<Step>)
    requires CanRun(s, steps) && Inv(s)
    ensures InBounds(Run(s, steps)) <==> InBounds(s) && SmallChannels(steps)
    decreases |steps|
  {
    hide Inv, Apply, Enabled, InBounds, Typed;
    if steps != [] {
      InvTyped(s);
      if InBounds(s) {
        InBoundsKept(s, steps[0]);
      } else {
        StaysOut(s, steps[0]);
      }
      InvKept(s, steps[0]);
      InBoundsRun(Apply(s, steps[0]), steps[1..]);
    }
  }

  /** Every queued receive names a list if and only if every receive was asked
      for on a node whose left-over channel names one; then the worker is never
      stuck on a detached receive. */
  lemma WorkerCanPost(n: nat, steps: seq<Step>)
    requires CanRun(Start(n), steps)
    ensures var s := Run(Start(n), steps);
            && (InBounds(s) <==> SmallChannels(steps))
            && (SmallChannels(steps) && s.batch != [] && !s.exited ==> Enabled(s, PostNext))
  {
    hide Start, CanRun, Run, Inv, Typed, Enabled;
    StartInv(n);
    StartPlain(n);
    InBoundsRun(Start(n), steps);
    RunInv(Start(n), steps);
    var s := Run(Start(n), steps);
    InvTyped(s);
    if SmallChannels(steps) && s.batch != [] && !s.exited { CanPost(s); }
  }

  /** A receive on a node whose left-over channel names no list: the worker
      detaches it, and its next turn would look outside recv_list. From there it
      gets no further, whatever else happens. */
  lemma WorkerOutOfBounds(n: nat, want: Selector, left: Fields, after: seq<Step>)
    requires OneChannel(want) && left.channel >= 0x100
    ensures CanRun(Start(n), [Recv(want, left), Drain])
    ensures var s := Run(Start(n), [Recv(want, left), Drain]);
            && s.batch != [] && !s.exited && !Enabled(s, PostNext)
            && (CanRun(s, after) ==> Run(s, after).batch == s.batch && !Run(s, after).exited)
  {
    hide Start, OneChannel, Enabled, Apply;
    StartPlain(n);
    DetachedOut(Start(n), want, left);
    var s1 := Apply(Start(n), Recv(want, left));
    EmptyRun(Apply(s1, Drain));
    RunStep(s1, [Drain]);
    assert [Recv(want, left), Drain][1..] == [Drain];
    RunStep(Start(n), [Recv(want, left), Drain]);
    if CanRun(Apply(s1, Drain), after) {
      StuckFor(Apply(s1, Drain), after);
    }
  }

  lemma DetachedOut(b: State, want: Selector, left: Fields)
    requires OneChannel(want) && left.channel >= 0x100 && b.recvQ == [] && b.batch == [] && !b.exited
    ensures Enabled(b, Recv(want, left)) && Enabled(Apply(b, Recv(want, left)), Drain)
    ensures var s := Apply(Apply(b, Recv(want, left)), Drain);
            && s.batch != [] && s.batch[0].fields.channel >= 0x100 && !s.exited && !Enabled(s, PostNext)
  {
    hide OneChannel, AfterNew, NodeFor;
  }

  lemma {:induction false} StuckFor(s: State, steps: seq<Step>)
    requires CanRun(s, steps) && s.batch != [] && s.batch[0].fields.channel >= 0x100 && !s.exited
    ensures Run(s, steps).batch == s.batch && !Run(s, steps).exited
    decreases |steps|
  {
    hide Apply, Enabled;
    if steps != [] {
      StuckStep(s, steps[0]);
      StuckFor(Apply(s, steps[0]), steps[1..]);
    }
  }

  lemma StuckStep(s: State, step: Step)
    requires Enabled(s, step) && s.batch != [] && s.batch[0].fields.channel >= 0x100 && !s.exited
    ensures Apply(s, step).batch == s.batch && !Apply(s, step).exited
  {
    hide Pull, Take, Arrive, HasMatch, FirstMatch, FreeOf, WithFree, DecodeTag, Without, AfterNew, NodeFor, Probed,
      EncodeTag, DoPostNext;
  }

  /** A node that has served as a receive is not such a node: when the user
      releases it, it holds a decoded channel. */
  lemma ServedNodeInBounds(s: State, i: nat)
    requires Reachable(s) && i < |s.user| && s.user[i].body.RecvBody?
    ensures s.user[i].fields.channel < 0x100
  {
    hide Reachable, Inv;
    ReachableInv(s);
    InvTyped(s);
    assert s.user[i] in s.user;
  }

  // ----- from the start to the stop -----

  /** A run flag is cleared by a stop and by nothing else. */
  lemma {:induction false} RunFlag(s: State, steps: seq<Step>)
    requires CanRun(s, steps)
    ensures Run(s, steps).run <==> s.run && Stop !in steps
    decreases |steps|
  {
    hide Apply, Enabled;
    if steps != [] {
      RunFlagStep(s, steps[0]);
      RunFlag(Apply(s, steps[0]), steps[1..]);
      assert steps == [steps[0]] + steps[1..];
    }
  }

  lemma RunFlagStep(s: State, step: Step)
    requires Enabled(s, step)
    ensures Apply(s, step).run == (s.run && step != Stop)
  {
    hide Pull, Take, Arrive, HasMatch, FirstMatch, FreeOf, WithFree, DecodeTag, Without, AfterNew, NodeFor, Probed,
      EncodeTag, Matched, Post;
  }

  /** The worker runs from the start on, and until it is stopped. */
  lemma RunsUntilStopped(n: nat, steps: seq<Step>)
    requires CanRun(Start(n), steps)
    ensures Start(n).run && (Run(Start(n), steps).run <==> Stop !in steps)
  {
    hide Start, CanRun, Run;
    StartBlank(n);
    RunFlag(Start(n), steps);
  }

  lemma StartRuns(n: nat)
    ensures Start(n).run
  {
    hide Start;
    StartBlank(n);
  }

  /** It leaves its loop only after a stop. */
  lemma ExitAfterStop(n: nat, before: seq<Step>)
    requires CanRun(Start(n), before) && Enabled(Run(Start(n), before), Exit)
    ensures Stop in before
  {
    hide Start, CanRun, Run;
    RunsUntilStopped(n, before);
  }

  /** start_ fills each of the three pools with nodes of its own. */
  lemma {:induction false} PoolsFilled(s: State, k: Kind, n: nat)
    ensures forall k' :: |FreeOf(Preallocate(s, k, n).free, k')| == |FreeOf(s.free, k')| + if k' == k then n else 0
    ensures |Preallocate(s, k, n).home| == |s.home| + n
  {
    hide FreeOf, WithFree;
    if n > 0 {
      PoolsFilled(s, k, n - 1);
    }
  }

  lemma StartPools(n: nat)
    ensures |Start(n).home| == 3 * n && forall k :: |FreeOf(Start(n).free, k)| == n
  {
    hide FreeOf, Preallocate;
    PoolsFilled(Empty(), SendKind, n);
    PoolsFilled(Preallocate(Empty(), SendKind, n), RecvKind, n);
    PoolsFilled(Preallocate(Preallocate(Empty(), SendKind, n), RecvKind, n), ProbeKind, n);
    EmptyPools();
  }

  lemma EmptyPools()
    ensures forall k :: FreeOf(Empty().free, k) == []
  {
  }

  // ----- shutdown -----

  /** After the exit nothing completes, and nothing completed is forgotten. */
  lemma {:induction false} LogFrozen(s: State, steps: seq<Step>)
    requires CanRun(s, steps) && s.exited
    ensures Run(s, steps).log == s.log && s.tickets <= Run(s, steps).tickets
    decreases |steps|
  {
    hide Pull, Take, Post, HasMatch, FirstMatch, FreeOf, WithFree, DecodeTag, Matched, Without;
    if steps != [] {
      LogFrozen(Apply(s, steps[0]), steps[1..]);
    }
  }

  /** When the worker leaves its loop, every send and receive ever submitted has
      completed exactly once; whatever happens afterwards, those submitted later
      never complete. */
  lemma DrainedAtExit(n: nat, before: seq<Step>, after: seq<Step>, t: nat)
    requires CanRun(Start(n), before) && Enabled(Run(Start(n), before), Exit)
    requires CanRun(Apply(Run(Start(n), before), Exit), after)
    ensures var s := Run(Start(n), before);
            Sum(Run(Apply(s, Exit), after).log, LogTicket)[t] == if t < s.tickets then 1 else 0
  {
    hide Start, CanRun, Run, Typed;
    var s := Run(Start(n), before);
    StartInv(n);
    RunInv(Start(n), before);
    LogFrozen(Apply(s, Exit), after);
    assert TicketCount(s, t) == if t < s.tickets then 1 else 0;
  }

  /** So every submission completes if and only if none comes after the exit. */
  lemma AllCompleteExactly(n: nat, before: seq<Step>, after: seq<Step>)
    requires CanRun(Start(n), before) && Enabled(Run(Start(n), before), Exit)
    requires CanRun(Apply(Run(Start(n), before), Exit), after)
    ensures var s := Run(Start(n), before);
            var e := Run(Apply(s, Exit), after);
            (forall t: nat | t < e.tickets :: Sum(e.log, LogTicket)[t] == 1) <==> e.tickets == s.tickets
  {
    hide Start, CanRun, Run, Sum;
    var s := Run(Start(n), before);
    var e := Run(Apply(s, Exit), after);
    LogFrozen(Apply(s, Exit), after);
    forall t: nat
      ensures Sum(e.log, LogTicket)[t] == if t < s.tickets then 1 else 0
    {
      DrainedAtExit(n, before, after, t);
    }
    if s.tickets < e.tickets {
      assert Sum(e.log, LogTicket)[s.tickets] == 0;
    }
  }

  // ----- the same for states -----

  /** A harmless run leads to s, and every receive queued in s holds its channel. */
  ghost predicate Intended(s: State) {
    AllRight(s) && exists capacity: nat, steps ::
      CanRun(Start(capacity), steps) && Run(Start(capacity), steps) == s && HarmlessRun(Start(capacity), steps)
  }

  /** s is what the one queue makes of some arrivals, receives and takes. */
  ghost predicate OfOneQueue(s: State) {
    exists labels :: QCanRun(NoTraffic(), labels) && Refines(s.index, QRun(NoTraffic(), labels))
  }

  lemma IntendedMeans(s: State)
    requires Intended(s)
    ensures Reachable(s) && OfOneQueue(s) && NothingMissed(s.index)
  {
    hide Start, CanRun, Run, LabelsOf, QCanRun, QRun, NothingMissed, Refines, HarmlessRun, StaysAlong, AllRight;
    var n: nat, steps :| CanRun(Start(n), steps) && Run(Start(n), steps) == s && HarmlessRun(Start(n), steps);
    EngineIsOneQueue(n, steps);
    assert QCanRun(NoTraffic(), LabelsOf(Start(n), steps));
  }

  lemma StartIntended(n: nat)
    ensures Intended(Start(n))
  {
    hide Start;
    StartPlain(n);
    assert CanRun(Start(n), []) && Run(Start(n), []) == Start(n) && HarmlessRun(Start(n), []);
  }

  lemma IntendedOn(s: State, s': State)
    requires Intended(s) && LeadsTo(s, s', true) && AllRight(s')
    ensures Intended(s')
  {
    hide CanRun, Run, Start, HarmlessRun, AllRight;
    var n: nat, a :| CanRun(Start(n), a) && Run(Start(n), a) == s && HarmlessRun(Start(n), a);
    var b :| CanRun(s, b) && Run(s, b) == s' && HarmlessRun(s, b);
    RunsJoin(Start(n), a, b);
    assert CanRun(Start(n), a + b) && Run(Start(n), a + b) == s' && HarmlessRun(Start(n), a + b);
  }

  lemma RightKept(s: State, step: Step)
    requires Enabled(s, step) && Inv(s) && AllRight(s)
    ensures AllRight(Apply(s, step)) <==> (step.Recv? ==> step.left.channel == DecodeTag(step.want.tag).channel)
  {
    hide Inv, Typed, Apply, Enabled, AllRight;
    InvTyped(s);
    if step.Recv? {
      RecvRight(s, step.want, step.left);
    } else {
      AllRightKept(s, step);
    }
  }

  lemma RecvRight(s: State, want: Selector, left: Fields)
    requires AllRight(s) && Enabled(s, Recv(want, left))
    ensures AllRight(Apply(s, Recv(want, left))) <==> left.channel == DecodeTag(want.tag).channel
  {
    hide DecodeTag, OneChannel, AfterNew;
    assert Last(DoRecv(s, want, left).recvQ) in DoRecv(s, want, left).recvQ;
  }

  /** A call or an arrival leads on, and keeps every channel right unless it is
      clh_recv_ with a node that holds another channel. */
  lemma StepLeads(s: State, step: Step)
    requires Reachable(s) && Enabled(s, step) && !step.PostNext?
    ensures Reachable(Apply(s, step))
    ensures Intended(s) ==>
              (Intended(Apply(s, step)) <==> (step.Recv? ==> step.left.channel == DecodeTag(step.want.tag).channel))
  {
    hide Reachable, Apply, Enabled, LeadsTo, AllRight, Inv;
    ReachableInv(s);
    LeadsToSelf(Apply(s, step), true);
    LeadsToSelf(Apply(s, step), false);
    StepThen(s, step, Apply(s, step), true);
    StepThen(s, step, Apply(s, step), false);
    ReachableOn(s, Apply(s, step));
    if AllRight(s) {
      RightKept(s, step);
    }
    if Intended(s) && AllRight(Apply(s, step)) {
      IntendedOn(s, Apply(s, step));
    }
  }

  lemma TurnLeads(s: State, finish: set<nat>)
    requires Reachable(s) && Between(s)
    ensures Reachable(TurnPass(s, finish)) && (Intended(s) ==> Intended(TurnPass(s, finish)))
  {
    hide Reachable, LeadsTo, AllRight, Between, TurnPass;
    TurnIsRun(s, finish, false);
    ReachableOn(s, TurnPass(s, finish));
    if Intended(s) {
      TurnIsRun(s, finish, true);
      IntendedOn(s, TurnPass(s, finish));
    }
  }

  // ----- runs go on -----

  lemma ReachableOn(s: State, s': State)
    requires Reachable(s) && LeadsTo(s, s', false)
    ensures Reachable(s')
  {
    hide CanRun, Run, Start, HarmlessRun;
    var n: nat, a :| CanRun(Start(n), a) && Run(Start(n), a) == s;
    var b :| CanRun(s, b) && Run(s, b) == s';
    RunsJoin(Start(n), a, b);
    assert CanRun(Start(n), a + b) && Run(Start(n), a + b) == s';
  }
}
