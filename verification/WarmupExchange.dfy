/** Where the warm-up ends: exactly when every node has its exchange, and what a
    left-over channel can do to it. */
module WarmupExchange {
  import opened Protocol
  import opened Sequences
  import opened Matching
  import opened Warmup
  import opened WarmupEnds
  import E = Engine
  import D = Delivery
  import G = Guarantees
  import I = Invariant
  import P = Passes
  import R = Refinement
  import S = StaleChannel

  /** Nothing is left at d; its ten sends to every peer and its ten receives
      from every peer have completed, and every receive has got the text of the
      rank it names. */
  ghost predicate Exchanged(net: Net, d: Rank)
    requires d in net.nodes
  {
    var s, origin := net.nodes[d].engine, net.nodes[d].origin;
    && s.sendQ == [] && s.recvQ == [] && s.batch == [] && s.ops == [] && s.user == []
    && s.index.unexpected == [] && s.index.posted == [] && (forall l | l in s.index.lists :: l == [])
    && (forall r | r in net.nodes && r != d ::
          Sum(s.log, LogDest)[r] == 10 && Sum(s.log, LogNamed)[r] == 10)
    && (forall c | c in s.log && c.request.body.RecvBody? ::
          && c.message.Some? && c.message.value.id < |origin|
          && origin[c.message.value.id] == SenderRank(c.request.body.want.tag))
  }

  // ----- where nothing more can happen -----

  lemma Typed(s: E.State)
    requires I.Inv(s)
    ensures D.Typed(s)
  {
    hide D.Typed;
    S.InvTyped(s);
  }

  /** A quiet node in bounds has only receives that wait. */
  lemma QuietNode(net: Net, d: Rank, asking: bool)
    requires Inv(net) && Quiet(net, asking) && d in net.nodes && P.InBounds(net.nodes[d].engine)
    ensures var s := net.nodes[d].engine;
            && s.sendQ == [] && s.recvQ == [] && s.batch == [] && s.user == [] && s.index.unexpected == []
            && forall r | r in s.ops :: r.body.RecvBody? && r.ticket !in s.index.given
  {
    hide NodesOk, AllCounted, TagsOk, I.Inv, IndexOk, QueuesOk, E.Enabled;
    PeersOk(net, d);
    NodeQuiet(net.nodes[d].engine, d, net, asking);
  }

  lemma NodeQuiet(s: E.State, d: Rank, net: Net, asking: bool)
    requires d in net.nodes && s == net.nodes[d].engine && Quiet(net, asking)
    requires I.Inv(s) && !s.exited && P.InBounds(s)
    ensures s.sendQ == [] && s.recvQ == [] && s.batch == [] && s.user == [] && s.index.unexpected == []
    ensures forall r | r in s.ops :: r.body.RecvBody? && r.ticket !in s.index.given
  {
    hide I.Inv, D.Typed;
    Typed(s);
    I.InvWindow(s);
    P.TypedShaped(s);
    BatchRuns(s);
    assert s.user != [] ==> Enabled(net, Work(d, E.Release(0)));
    assert s.batch != [] ==> Enabled(net, Work(d, E.PostNext));
    assert s.batch == [] && s.recvQ != [] ==> Enabled(net, Work(d, E.Drain));
    assert s.index.unexpected != [] ==> Enabled(net, Work(d, E.PullOne));
    forall i | 0 <= i < |s.ops|
      ensures s.ops[i].body.RecvBody? && s.ops[i].ticket !in s.index.given
    {
      assert !Enabled(net, Work(d, E.Complete(i)));
      OpShape(s, i);
    }
    NoSends(s);
    assert s.sendQ != [] ==> Enabled(net, Work(d, E.SubmitSend));
  }

  lemma BatchRuns(s: E.State)
    requires D.Typed(s) && P.InBounds(s) && !s.exited
    ensures s.batch != [] ==> E.Enabled(s, E.PostNext)
  {
    hide D.Typed;
    if s.batch != [] { P.CanPost(s); }
  }

  lemma OpShape(s: E.State, i: nat)
    requires D.Typed(s) && i < |s.ops|
    ensures s.ops[i].body.SendBody? || (s.ops[i].body.RecvBody? && s.ops[i].kind != E.SendKind)
  {
    assert s.ops[i] in s.ops;
  }

  lemma NoSends(s: E.State)
    requires D.Typed(s) && forall r | r in s.ops :: r.body.RecvBody?
    ensures Sum(s.ops, I.KindOf)[E.SendKind] == 0
  {
    hide D.Typed;
    if Sum(s.ops, I.KindOf)[E.SendKind] > 0 {
      var i := SumWitness(s.ops, I.KindOf, E.SendKind);
      assert s.ops[i] in s.ops;
      OpShape(s, i);
    }
  }

  lemma NoDest(q: seq<E.Request>, r: Rank)
    requires forall x | x in q :: x.body.RecvBody?
    ensures Sum(q, DestOf)[r] == 0
  {
    if Sum(q, DestOf)[r] > 0 {
      var i := SumWitness(q, DestOf, r);
      assert false;
    }
  }

  /** When only receives could still be asked for, everything sent has arrived;
      as many messages are stored as receives wait. */
  lemma QuietPair(net: Net, d: Rank, r: Rank, asking: bool)
    requires Inv(net) && Quiet(net, asking) && d in net.nodes && r in net.nodes && r != d
    requires P.InBounds(net.nodes[d].engine) && P.InBounds(net.nodes[r].engine)
    ensures var n := net.nodes[d];
            var s := n.engine;
            && s.index.lists != [] && multiset(n.origin)[r] == ROUNDS && Sum(s.log, LogDest)[r] == ROUNDS
            && Sum(s.ops, NamedOf)[r] + Sum(s.log, LogNamed)[r] == net.asks[Route(r, d)]
            && (asking ==> net.asks[Route(r, d)] == ROUNDS)
            && Sum(s.index.lists[0], SenderOf)[r] + net.asks[Route(r, d)] == Sum(s.index.posted, NamedBy)[r] + ROUNDS
  {
    hide NodesOk, Sum, Inside, E.Enabled;
    QuietNode(net, d, asking);
    QuietNode(net, r, asking);
    NoWires(net, asking);
    assert Carried(net, r, d) && Counted(net, d, r);
    assert !Enabled(net, Send(r, d)) && !Enabled(net, Send(d, r));
    AllSent(net, r, d);
    AllSent(net, d, r);
    NoDest(net.nodes[d].engine.ops, r);
    SumNone(net.nodes[d].engine.sendQ, DestOf, r);
    SumNone(net.nodes[r].engine.sendQ, DestOf, d);
    SumNone(net.nodes[d].engine.recvQ, NamedOf, r);
    SumNone(net.nodes[d].engine.batch, NamedOf, r);
    SumNone(net.nodes[d].engine.index.unexpected, SenderOf, r);
    if asking {
      assert !Enabled(net, Ask(d, r, Fields(0, 0, 0)));
      if Route(r, d) in net.asks { assert net.asks[Route(r, d)] <= ROUNDS; }
    }
  }

  lemma AllSent(net: Net, d: Rank, r: Rank)
    requires RoutesOk(net) && d in net.nodes && r in net.nodes && d != r && !Enabled(net, Send(d, r))
    ensures net.sends[Route(d, r)] == ROUNDS
  {
    if Route(d, r) in net.sends { assert net.sends[Route(d, r)] <= ROUNDS; }
  }

  lemma SumNone<T, U>(q: seq<T>, f: T -> multiset<U>, u: U)
    requires q == []
    ensures Sum(q, f)[u] == 0
  {
  }

  lemma NoWires(net: Net, asking: bool)
    requires RoutesOk(net) && Quiet(net, asking)
    ensures net.wires == multiset{}
  {
    if net.wires != multiset{} {
      var x :| x in net.wires;
      assert Pair(net, x.route) && Enabled(net, Deliver(x));
    }
  }

  // ----- nothing missed -----

  /** A stored message and a waiting receive of one peer match. */
  lemma BothWait(peers: set<Rank>, origin: seq<Rank>, x: Index, r: Rank)
    requires IndexOk(peers, origin, x) && Ranks(peers) && (forall f | f in origin :: f in peers)
    requires R.NothingMissed(x)
    ensures Sum(x.lists[0], SenderOf)[r] == 0 || Sum(x.posted, NamedBy)[r] == 0
  {
    hide WarmTag, Want, TagMatches, DecodeTag, Chan, OneChannel;
    if Sum(x.lists[0], SenderOf)[r] > 0 && Sum(x.posted, NamedBy)[r] > 0 {
      var i := SumWitness(x.lists[0], SenderOf, r);
      var j := SumWitness(x.posted, NamedBy, r);
      var m, p := x.lists[0][i], x.posted[j];
      assert m in x.lists[0] && p in x.posted;
      RanksShow(origin[m.id]);
      WarmMatch(origin[m.id], SenderRank(p.want.tag));
    }
  }

  /** Each of them is of some peer. */
  lemma SomePeer(peers: set<Rank>, origin: seq<Rank>, x: Index) returns (r: Rank)
    requires IndexOk(peers, origin, x) && Ranks(peers) && (forall f | f in origin :: f in peers)
    requires x.lists[0] != [] || x.posted != []
    ensures r in peers && (Sum(x.lists[0], SenderOf)[r] > 0 || Sum(x.posted, NamedBy)[r] > 0)
  {
    hide WarmTag, Want, DecodeTag, Chan, OneChannel;
    if x.lists[0] != [] {
      var m := x.lists[0][0];
      assert m in x.lists[0];
      RanksShow(origin[m.id]);
      r := SenderRank(m.tag);
      SumHas(x.lists[0], 0, SenderOf);
      assert Sum(x.lists[0], SenderOf)[r] >= SenderOf(m)[r] == 1;
    } else {
      var p := x.posted[0];
      assert p in x.posted;
      r := SenderRank(p.want.tag);
      SumHas(x.posted, 0, NamedBy);
      assert Sum(x.posted, NamedBy)[r] >= NamedBy(p)[r] == 1;
    }
  }

  /** So with nothing missed at d, nothing is left there. */
  lemma NothingLeft(net: Net, d: Rank)
    requires Inv(net) && Quiet(net, true) && d in net.nodes
    requires forall e | e in net.nodes :: P.InBounds(net.nodes[e].engine)
    requires R.NothingMissed(net.nodes[d].engine.index)
    ensures var x := net.nodes[d].engine.index;
            x.posted == [] && x.unexpected == [] && forall l | l in x.lists :: l == []
  {
    hide I.Inv, Sum, Quiet, AllCounted, TagsOk, R.NothingMissed, P.InBounds, QueuesOk, WarmMessage, WarmWant;
    var n := net.nodes[d];
    QuietNode(net, d, true);
    PeersOk(net, d);
    if n.engine.index.lists[0] != [] || n.engine.index.posted != [] {
      var r := SomePeer(net.nodes.Keys - {d}, n.origin, n.engine.index);
      BothWait(net.nodes.Keys - {d}, n.origin, n.engine.index, r);
      QuietPair(net, d, r, true);
    }
  }

  /** With no receive waiting, no receive is in progress. */
  lemma NoneInProgress(s: E.State)
    requires I.Inv(s) && s.index.posted == []
    requires forall r | r in s.ops :: r.body.RecvBody? && r.ticket !in s.index.given
    ensures s.ops == []
  {
    hide Sum;
    if s.ops != [] {
      var r := s.ops[0];
      assert r in s.ops;
      SumHas(s.ops, 0, D.RecvTicket);
      assert D.RecvTicket(r)[r.ticket] == 1;
      assert D.HeldByTransport(s.index, r.ticket) == D.HandedOver(s, r.ticket);
      SumNone(s.index.posted, D.PostedTicket, r.ticket);
    }
  }

  /** Every completed receive got the text of the rank it names. */
  lemma LogTells(peers: set<Rank>, n: Node)
    requires NodeOk(peers, n) && Ranks(peers)
    ensures forall c | c in n.engine.log && c.request.body.RecvBody? ::
              && c.message.Some? && c.message.value.id < |n.origin|
              && n.origin[c.message.value.id] == SenderRank(c.request.body.want.tag)
  {
    hide WarmTag, Want, TagMatches, DecodeTag, Chan, OneChannel, D.Typed, Sum, D.GivenMatch;
    forall c | c in n.engine.log && c.request.body.RecvBody?
      ensures c.message.Some? && c.message.value.id < |n.origin|
      ensures n.origin[c.message.value.id] == SenderRank(c.request.body.want.tag)
    {
      var m := c.message.value;
      assert n.engine.index.given[c.request.ticket] == m;
      TakenFrom(peers, n.origin, m, c.request.body.want);
    }
  }

  lemma ExchangeOf(net: Net, d: Rank)
    requires Inv(net) && Quiet(net, true) && d in net.nodes
    requires forall e | e in net.nodes :: P.InBounds(net.nodes[e].engine)
    requires R.NothingMissed(net.nodes[d].engine.index)
    ensures Exchanged(net, d)
  {
    hide I.Inv, Sum, Quiet, AllCounted, TagsOk, NodesOk, R.NothingMissed, P.InBounds, QueuesOk, IndexOk;
    PeersOk(net, d);
    QuietNode(net, d, true);
    NothingLeft(net, d);
    NoneInProgress(net.nodes[d].engine);
    LogTells(net.nodes.Keys - {d}, net.nodes[d]);
    forall r | r in net.nodes && r != d
      ensures Sum(net.nodes[d].engine.log, LogDest)[r] == ROUNDS && Sum(net.nodes[d].engine.log, LogNamed)[r] == ROUNDS
    {
      QuietPair(net, d, r, true);
      SumNone(net.nodes[d].engine.ops, NamedOf, r);
    }
  }

  /** At rest, all nodes have their exchange if and only if no node looked
      outside recv_list and no receive waits beside a message for it. */
  lemma ExchangedAtRest(net: Net)
    requires Inv(net) && Quiet(net, true)
    ensures (forall d | d in net.nodes :: Exchanged(net, d))
            <==> (forall d | d in net.nodes ::
                    P.InBounds(net.nodes[d].engine) && R.NothingMissed(net.nodes[d].engine.index))
  {
    hide Inv, Quiet, Exchanged, P.InBounds, R.NothingMissed;
    if forall d | d in net.nodes :: P.InBounds(net.nodes[d].engine) && R.NothingMissed(net.nodes[d].engine.index) {
      forall d | d in net.nodes
        ensures Exchanged(net, d)
      {
        ExchangeOf(net, d);
      }
    }
    forall d | d in net.nodes && Exchanged(net, d)
      ensures P.InBounds(net.nodes[d].engine) && R.NothingMissed(net.nodes[d].engine.index)
    {
      ExchangedMeans(net, d);
    }
  }

  /** So it is for every run of the code, harmless or not, that has come to its
      end. */
  lemma ExchangedExactly(ranks: set<Rank>, capacity: nat, steps: seq<Step>)
    requires Ranks(ranks) && CanRun(Start(ranks, capacity), steps)
    requires Quiet(Run(Start(ranks, capacity), steps), true)
    ensures var net := Run(Start(ranks, capacity), steps);
            && net.nodes.Keys == ranks
            && ((forall d | d in ranks :: Exchanged(net, d))
                <==> (forall d | d in ranks ::
                        P.InBounds(net.nodes[d].engine) && R.NothingMissed(net.nodes[d].engine.index)))
  {
    hide Inv, Quiet, Exchanged, CanRun, Run, Start, P.InBounds, R.NothingMissed;
    StartInv(ranks, capacity);
    RunInv(Start(ranks, capacity), steps);
    ExchangedAtRest(Run(Start(ranks, capacity), steps));
  }

  lemma ExchangedMeans(net: Net, d: Rank)
    requires d in net.nodes && Exchanged(net, d)
    ensures P.InBounds(net.nodes[d].engine) && R.NothingMissed(net.nodes[d].engine.index)
  {
  }

  // ----- finished is quiet -----

  lemma NothingRuns(s: E.State, step: E.Step)
    requires Inside(s, step) && s.sendQ == [] && s.recvQ == [] && s.batch == [] && s.ops == [] && s.user == []
    requires s.index.unexpected == []
    ensures !E.Enabled(s, step)
  {
  }

  lemma PairDone(net: Net, r: Rank, d: Rank)
    requires Inv(net) && d in net.nodes && r in net.nodes && r != d && Exchanged(net, d) && Exchanged(net, r)
    ensures net.sends[Route(r, d)] == ROUNDS && net.asks[Route(r, d)] == ROUNDS && net.wires[Warm(r, d)] == 0
  {
    hide NodesOk, RoutesOk, Sum;
    var s := net.nodes[d].engine;
    assert Counted(net, d, r) && Counted(net, r, d) && Carried(net, r, d);
    SumNone(s.recvQ, NamedOf, r);
    SumNone(s.batch, NamedOf, r);
    SumNone(s.ops, NamedOf, r);
    SumNone(s.index.unexpected, SenderOf, r);
    SumNone(s.index.posted, NamedBy, r);
    assert s.index.lists[0] in s.index.lists;
    SumNone(s.index.lists[0], SenderOf, r);
    SumNone(net.nodes[r].engine.sendQ, DestOf, d);
    SumNone(net.nodes[r].engine.ops, DestOf, d);
  }

  lemma ExchangedIsQuiet(net: Net)
    requires Inv(net) && forall d | d in net.nodes :: Exchanged(net, d)
    ensures Quiet(net, true)
  {
    forall step
      ensures !Enabled(net, step)
    {
      NotEnabled(net, step);
    }
  }

  lemma NotEnabled(net: Net, step: Step)
    requires Inv(net) && forall d | d in net.nodes :: Exchanged(net, d)
    ensures !Enabled(net, step)
  {
    hide NodesOk, AllCounted, TagsOk, Sum, Exchanged;
    if Enabled(net, step) {
      match step
      case Send(d, r) => PairDone(net, d, r);
      case Ask(d, r, _) => PairDone(net, r, d);
      case Work(d, inner) => NodeDone(net, d, inner);
      case Deliver(Wire(route, _)) =>
        assert Pair(net, route);
        PairDone(net, route.from, route.dest);
    }
  }

  lemma NodeDone(net: Net, d: Rank, inner: E.Step)
    requires d in net.nodes && Exchanged(net, d) && Inside(net.nodes[d].engine, inner)
    ensures !E.Enabled(net.nodes[d].engine, inner)
  {
    hide Inside, E.Enabled;
    NothingRuns(net.nodes[d].engine, inner);
  }

  // ----- harmless runs -----

  /** The node a step is about, and what its engine does. */
  function Actor(step: Step): Rank {
    match step
    case Send(d, _) => d
    case Ask(d, _, _) => d
    case Work(d, _) => d
    case Deliver(wire) => wire.route.dest
  }

  function Act(net: Net, step: Step): E.Step
    requires Enabled(net, step)
  {
    match step
    case Send(d, r) => E.Send(0, d.id, r.id, 0)
    case Ask(d, r, left) => E.Recv(Want(r), left)
    case Work(_, inner) => inner
    case Deliver(Wire(route, tag)) => E.Arrival(Message(|net.nodes[route.dest].engine.arrived|, tag, SIZE))
  }

  /** Every step is a step of one engine. */
  lemma Acts(net: Net, step: Step)
    requires Inv(net) && Enabled(net, step)
    ensures var d, net' := Actor(step), Apply(net, step);
            && d in net.nodes && E.Enabled(net.nodes[d].engine, Act(net, step)) && net'.nodes.Keys == net.nodes.Keys
            && net'.nodes[d].engine == E.Apply(net.nodes[d].engine, Act(net, step))
            && forall e | e in net.nodes && e != d :: net'.nodes[e] == net.nodes[e]
  {
    hide NodeOk, AllCounted, TagsOk, WarmTag, Want, E.DoSend, E.DoRecv, E.DoArrival, Inside;
    if step.Ask? {
      assert step.r.id < 0x100_0000;
      RanksShow(step.r);
    }
    assert Apply(net, step).nodes.Keys == net.nodes.Keys;
  }

  /** Every turn of a worker in the run is harmless. */
  predicate HarmlessRun(net: Net, steps: seq<Step>)
    requires CanRun(net, steps)
    decreases |steps|
  {
    steps != [] ==>
      && (steps[0].Work? ==> R.Harmless(net.nodes[steps[0].d].engine, steps[0].step))
      && HarmlessRun(Apply(net, steps[0]), steps[1..])
  }

  /** All receives are on nodes whose channel names a list. */
  predicate SmallChannels(steps: seq<Step>) {
    forall i | 0 <= i < |steps| :: steps[i].Ask? ==> steps[i].left.channel < 0x100
  }

  /** s is related to a queue that misses no match. */
  ghost predicate Follows(s: E.State) {
    exists q :: Refines(s.index, q) && R.NoMissedMatch(q)
  }

  lemma FollowsOn(s: E.State, step: E.Step)
    requires I.Inv(s) && E.Enabled(s, step) && R.Harmless(s, step) && Follows(s)
    ensures Follows(E.Apply(s, step))
  {
    hide I.Inv, D.Typed, E.Enabled, E.Apply, R.Harmless, Refines, R.NoMissedMatch, R.LabelOf, R.QMove;
    Typed(s);
    var q :| Refines(s.index, q) && R.NoMissedMatch(q);
    R.StepRefines(s, step, q);
    R.NoMissedMatchKept(q, R.LabelOf(s, step));
  }

  lemma FollowsMissesNothing(s: E.State)
    requires Follows(s)
    ensures R.NothingMissed(s.index)
  {
    hide Refines, R.NoMissedMatch, R.NothingMissed;
    var q :| Refines(s.index, q) && R.NoMissedMatch(q);
    R.NothingMissedHere(s.index, q);
  }

  /** Every node is in bounds and follows one queue. */
  ghost predicate AllFollow(net: Net) {
    forall d | d in net.nodes :: P.InBounds(net.nodes[d].engine) && Follows(net.nodes[d].engine)
  }

  lemma OthersHarmless(s: E.State, step: E.Step)
    requires E.Enabled(s, step) && !step.PostNext?
    ensures R.Harmless(s, step)
  {
  }

  lemma StepFollows(net: Net, step: Step)
    requires Inv(net) && Enabled(net, step) && AllFollow(net)
    requires step.Ask? ==> step.left.channel < 0x100
    requires step.Work? ==> R.Harmless(net.nodes[step.d].engine, step.step)
    ensures AllFollow(Apply(net, step))
  {
    hide Apply, I.Inv, NodesOk, AllCounted, TagsOk, E.Enabled, E.Apply, R.Harmless, Follows, P.InBounds, D.Typed;
    var d := Actor(step);
    Acts(net, step);
    PeersOk(net, d);
    var s, act := net.nodes[d].engine, Act(net, step);
    Typed(s);
    P.InBoundsKept(s, act);
    if !step.Work? { OthersHarmless(s, act); }
    FollowsOn(s, act);
  }

  lemma {:induction false} RunFollows(net: Net, steps: seq<Step>)
    requires Inv(net) && CanRun(net, steps) && AllFollow(net) && HarmlessRun(net, steps) && SmallChannels(steps)
    ensures AllFollow(Run(net, steps))
    decreases |steps|
  {
    hide Inv, Apply, Enabled, AllFollow, R.Harmless;
    if steps != [] {
      StepInv(net, steps[0]);
      StepFollows(net, steps[0]);
      RunFollows(Apply(net, steps[0]), steps[1..]);
    }
  }

  lemma StartFollows(ranks: set<Rank>, capacity: nat)
    ensures AllFollow(Start(ranks, capacity))
  {
    hide E.Start, Refines, R.NoMissedMatch;
    G.StartRefines(capacity);
    G.StartPlain(capacity);
  }

  /** For any set of ranks and any interleaving of a harmless run on nodes whose
      channels name lists: nothing more can happen exactly when every node has
      had its exchange with every other. */
  lemma DoneExactlyWhenExchanged(ranks: set<Rank>, capacity: nat, steps: seq<Step>)
    requires Ranks(ranks) && CanRun(Start(ranks, capacity), steps)
    requires HarmlessRun(Start(ranks, capacity), steps) && SmallChannels(steps)
    ensures var net := Run(Start(ranks, capacity), steps);
            net.nodes.Keys == ranks && (Quiet(net, true) <==> forall d | d in ranks :: Exchanged(net, d))
  {
    hide Inv, Exchanged, Quiet, CanRun, Run, Start, HarmlessRun, SmallChannels, Follows, P.InBounds, R.NothingMissed;
    StartInv(ranks, capacity);
    StartFollows(ranks, capacity);
    RunInv(Start(ranks, capacity), steps);
    RunFollows(Start(ranks, capacity), steps);
    var net := Run(Start(ranks, capacity), steps);
    if Quiet(net, true) {
      forall d | d in net.nodes
        ensures P.InBounds(net.nodes[d].engine) && R.NothingMissed(net.nodes[d].engine.index)
      {
        FollowsMissesNothing(net.nodes[d].engine);
      }
      ExchangedAtRest(net);
    } else if forall d | d in ranks :: Exchanged(net, d) {
      ExchangedIsQuiet(net);
    }
  }

  // ----- left-over channels -----

  ghost predicate AllRight(net: Net) {
    forall d | d in net.nodes :: R.AllRight(net.nodes[d].engine)
  }

  lemma StepRight(net: Net, step: Step)
    requires Inv(net) && Enabled(net, step) && AllRight(net) && (step.Ask? ==> step.left.channel == 0)
    ensures AllRight(Apply(net, step))
    ensures step.Work? ==> R.Harmless(net.nodes[step.d].engine, step.step)
  {
    hide Apply, I.Inv, NodesOk, AllCounted, TagsOk, E.Enabled, E.Apply, R.Harmless, R.AllRight, D.Typed, Want,
      DecodeTag;
    var d := Actor(step);
    Acts(net, step);
    PeersOk(net, d);
    var s, act := net.nodes[d].engine, Act(net, step);
    Typed(s);
    if step.Ask? { RanksShow(step.r); }
    R.AllRightKept(s, act);
    R.RightIsHarmless(s, act);
  }

  /** With channel 0 left over, every run is harmless. */
  lemma {:induction false} ZeroIsHarmless(net: Net, steps: seq<Step>, left: Fields)
    requires Inv(net) && CanRun(net, steps) && AllRight(net) && AskOn(steps, left) && left.channel == 0
    ensures HarmlessRun(net, steps)
    decreases |steps|
  {
    hide Inv, Apply, Enabled, AllRight, R.Harmless;
    if steps != [] {
      StepInv(net, steps[0]);
      StepRight(net, steps[0]);
      ZeroIsHarmless(Apply(net, steps[0]), steps[1..], left);
    }
  }

  ghost predicate AllInBounds(net: Net) {
    forall d | d in net.nodes :: P.InBounds(net.nodes[d].engine)
  }

  lemma StepInBounds(net: Net, step: Step)
    requires Inv(net) && Enabled(net, step) && AllInBounds(net) && (step.Ask? ==> step.left.channel < 0x100)
    ensures AllInBounds(Apply(net, step))
  {
    hide Apply, I.Inv, NodesOk, AllCounted, TagsOk, E.Enabled, E.Apply, P.InBounds, D.Typed;
    var d := Actor(step);
    Acts(net, step);
    PeersOk(net, d);
    Typed(net.nodes[d].engine);
    P.InBoundsKept(net.nodes[d].engine, Act(net, step));
  }

  lemma {:induction false} RunInBounds(net: Net, steps: seq<Step>)
    requires Inv(net) && CanRun(net, steps) && AllInBounds(net) && SmallChannels(steps)
    ensures AllInBounds(Run(net, steps))
    decreases |steps|
  {
    hide Inv, Apply, Enabled, AllInBounds;
    if steps != [] {
      StepInv(net, steps[0]);
      StepInBounds(net, steps[0]);
      RunInBounds(Apply(net, steps[0]), steps[1..]);
    }
  }

  lemma {:induction false} NothingAsked(net: Net, steps: seq<Step>)
    requires CanRun(net, steps) && NoAsk(steps)
    ensures Run(net, steps).asks == net.asks
    decreases |steps|
  {
    hide E.Apply, E.Enabled, Called, Reached, OnWire, Inside;
    if steps != [] {
      NothingAsked(Apply(net, steps[0]), steps[1..]);
    }
  }

  /** Everything sent has been stored, and no queued receive will look there. */
  ghost predicate Deaf(net: Net) {
    && net.wires == multiset{}
    && (forall d, r | d in net.nodes && r in net.nodes && d != r :: net.sends[Route(d, r)] >= ROUNDS)
    && forall d | d in net.nodes :: DeafNode(net.nodes[d].engine)
  }

  ghost predicate DeafNode(s: E.State) {
    && s.sendQ == [] && s.index.unexpected == [] && s.index.lists != [] && s.index.lists[0] != []
    && (forall r | r in s.recvQ :: r.fields.channel != 0) && (forall r | r in s.batch :: r.fields.channel != 0)
  }

  lemma DeafTurn(peers: set<Rank>, n: Node)
    requires NodeOk(peers, n) && DeafNode(n.engine) && E.Enabled(n.engine, E.PostNext)
    ensures DeafNode(E.DoPostNext(n.engine))
  {
    hide I.Inv, WarmMessage, WarmWant, E.DoPostNext, Post;
    var s := n.engine;
    var r := s.batch[0];
    assert r in s.batch;
    TurnIs(s);
    FindsNothing(s.index, r.ticket, r.fields.channel as nat, r.body.want);
  }

  lemma FindsNothing(x: Index, ticket: nat, c: nat, want: Selector)
    requires Shaped(x) && c < MAX_CHANNELS && x.lists[c] == [] && x.unexpected == []
    ensures Post(x, ticket, c, want).lists == x.lists && Post(x, ticket, c, want).unexpected == []
  {
  }

  lemma DeafWork(peers: set<Rank>, n: Node, step: E.Step)
    requires NodeOk(peers, n) && DeafNode(n.engine) && Inside(n.engine, step) && E.Enabled(n.engine, step)
    ensures DeafNode(E.Apply(n.engine, step)) && !step.SubmitSend?
  {
    hide I.Inv, IndexOk, QueuesOk, E.DoPostNext, E.FreeOf, E.WithFree, DecodeTag;
    match step
    case PostNext => DeafTurn(peers, n);
    case _ =>
  }

  lemma DeafAsk(n: Node, r: Rank, left: Fields)
    requires DeafNode(n.engine) && left.channel != 0
    ensures DeafNode(Asking(n, r, left).engine)
  {
    hide Want, E.AfterNew, E.NodeFor;
  }

  lemma DeafStep(net: Net, step: Step)
    requires Inv(net) && Enabled(net, step) && Deaf(net) && (step.Ask? ==> step.left.channel != 0)
    ensures Deaf(Apply(net, step))
  {
    hide NodeOk, DeafNode, AllCounted, TagsOk, Asking, Called, Reached, E.Apply, E.Enabled, Inside;
    match step
    case Send(_, _) =>
    case Deliver(_) =>
    case Ask(d, r, left) => DeafAsk(net.nodes[d], r, left);
    case Work(d, inner) =>
      PeersOk(net, d);
      DeafWork(net.nodes.Keys - {d}, net.nodes[d], inner);
      assert OnWire(net.nodes[d].engine, d, inner) == multiset{};
  }

  lemma {:induction false} DeafRun(net: Net, steps: seq<Step>, left: Fields)
    requires Inv(net) && CanRun(net, steps) && Deaf(net) && AskOn(steps, left) && left.channel != 0
    ensures Deaf(Run(net, steps))
    decreases |steps|
  {
    hide Inv, Apply, Enabled, Deaf;
    if steps != [] {
      StepInv(net, steps[0]);
      DeafStep(net, steps[0]);
      DeafRun(Apply(net, steps[0]), steps[1..], left);
    }
  }

  /** When all sends are through before any receive is asked for. */
  lemma SendsFirst(net: Net, d: Rank, r: Rank)
    requires Inv(net) && Quiet(net, false) && AllInBounds(net) && net.asks == multiset{}
    requires d in net.nodes && r in net.nodes && r != d
    ensures DeafNode(net.nodes[d].engine) && net.sends[Route(d, r)] == ROUNDS
  {
    hide NodesOk, AllCounted, TagsOk, Quiet, P.InBounds, Sum;
    QuietNode(net, d, false);
    QuietPair(net, d, r, false);
    var x := net.nodes[d].engine.index;
    if x.lists[0] == [] { SumNone(x.lists[0], SenderOf, r); }
    SentAll(net, d, r);
  }

  lemma SentAll(net: Net, d: Rank, r: Rank)
    requires RoutesOk(net) && Quiet(net, false) && d in net.nodes && r in net.nodes && r != d
    ensures net.sends[Route(d, r)] == ROUNDS
  {
    assert !Enabled(net, Send(d, r));
    AllSent(net, d, r);
  }

  lemma SendsFirstDeaf(net: Net)
    requires Inv(net) && Quiet(net, false) && AllInBounds(net) && net.asks == multiset{} && |net.nodes.Keys| >= 2
    ensures Deaf(net)
  {
    hide NodesOk, AllCounted, TagsOk, Quiet, AllInBounds, DeafNode;
    NoWires(net, false);
    forall d, r | d in net.nodes && r in net.nodes && d != r
      ensures net.sends[Route(d, r)] >= ROUNDS
    {
      SendsFirst(net, d, r);
    }
    forall d | d in net.nodes
      ensures DeafNode(net.nodes[d].engine)
    {
      var r := Another(net.nodes.Keys, d);
      SendsFirst(net, d, r);
    }
  }

  lemma Another(ranks: set<Rank>, d: Rank) returns (r: Rank)
    requires d in ranks && |ranks| >= 2
    ensures r in ranks && r != d
  {
    assert |ranks - {d}| == |ranks| - 1;
    r :| r in ranks - {d};
  }

  lemma {:induction false} AskOnJoin(a: seq<Step>, b: seq<Step>, left: Fields)
    requires (NoAsk(a) || AskOn(a, left)) && AskOn(b, left)
    ensures AskOn(a + b, left)
  {
  }

  /** If what is left over in the receives' nodes is any channel but 0, the
      warm-up can end with no node having its exchange: all messages are stored
      first, and no receive looks where they are. */
  lemma WarmupFails(ranks: set<Rank>, capacity: nat, left: Fields) returns (steps: seq<Step>)
    requires Ranks(ranks) && |ranks| >= 2 && left.channel != 0
    ensures CanRun(Start(ranks, capacity), steps) && AskOn(steps, left)
    ensures var net := Run(Start(ranks, capacity), steps);
            net.nodes.Keys == ranks && Quiet(net, true) && forall d | d in ranks :: !Exchanged(net, d)
  {
    hide Inv, CanRun, Run, Start, Quiet, Deaf, AllInBounds, AskOn, NoAsk, SmallChannels;
    var net0 := Start(ranks, capacity);
    StartInv(ranks, capacity);
    StartPart(ranks, capacity);
    var before := CarriedOn(net0, left, false);
    var net1 := Run(net0, before);
    RunInv(net0, before);
    NothingAsked(net0, before);
    NoAskSmall(before);
    RunInBounds(net0, before);
    SendsFirstDeaf(net1);
    var after := CarriedOn(net1, left, true);
    RunInv(net1, after);
    DeafRun(net1, after, left);
    RunsOn(net0, before, after);
    AskOnJoin(before, after, left);
    steps := before + after;
    DeafMeans(Run(net1, after));
  }

  lemma StartPart(ranks: set<Rank>, capacity: nat)
    ensures AllInBounds(Start(ranks, capacity)) && Start(ranks, capacity).asks == multiset{}
    ensures AllRight(Start(ranks, capacity))
  {
    hide E.Start;
    G.StartPlain(capacity);
  }

  lemma NoAskSmall(steps: seq<Step>)
    requires NoAsk(steps)
    ensures SmallChannels(steps)
  {
  }

  lemma DeafMeans(net: Net)
    requires Deaf(net)
    ensures forall d | d in net.nodes :: !Exchanged(net, d)
  {
    hide Sum;
    forall d | d in net.nodes
      ensures !Exchanged(net, d)
    {
      assert DeafNode(net.nodes[d].engine);
      assert net.nodes[d].engine.index.lists[0] in net.nodes[d].engine.index.lists;
    }
  }

  /** If it is channel 0, the warm-up always gets there: any run, carried on in
      some way, ends with every node having had its exchange. */
  lemma GetsThere(ranks: set<Rank>, capacity: nat, steps: seq<Step>, left: Fields) returns (more: seq<Step>)
    requires Ranks(ranks) && CanRun(Start(ranks, capacity), steps) && AskOn(steps, left) && left.channel == 0
    ensures CanRun(Start(ranks, capacity), steps + more) && AskOn(steps + more, left)
    ensures forall d | d in ranks :: d in Run(Start(ranks, capacity), steps + more).nodes
                                     && Exchanged(Run(Start(ranks, capacity), steps + more), d)
  {
    hide Inv, CanRun, Run, Start, Quiet, AskOn, Exchanged;
    StartInv(ranks, capacity);
    RunInv(Start(ranks, capacity), steps);
    more := CarriedOn(Run(Start(ranks, capacity), steps), left, true);
    RunsOn(Start(ranks, capacity), steps, more);
    AskOnJoin(steps, more, left);
    ZeroExchanges(ranks, capacity, steps + more, left);
  }

  /** And wherever it ends, it has got there. */
  lemma ZeroExchanges(ranks: set<Rank>, capacity: nat, steps: seq<Step>, left: Fields)
    requires Ranks(ranks) && CanRun(Start(ranks, capacity), steps) && AskOn(steps, left) && left.channel == 0
    requires Quiet(Run(Start(ranks, capacity), steps), true)
    ensures forall d | d in ranks :: d in Run(Start(ranks, capacity), steps).nodes
                                     && Exchanged(Run(Start(ranks, capacity), steps), d)
  {
    hide Inv, CanRun, Run, Start, Quiet, Exchanged, AllRight, AllInBounds;
    StartInv(ranks, capacity);
    StartPart(ranks, capacity);
    ZeroIsHarmless(Start(ranks, capacity), steps, left);
    DoneExactlyWhenExchanged(ranks, capacity, steps);
  }

  /** The warm-up ends in the exchange, whatever the interleaving. */
  ghost predicate AlwaysExchanges(ranks: set<Rank>, capacity: nat, left: Fields) {
    forall steps | CanRun(Start(ranks, capacity), steps) && AskOn(steps, left)
                   && Quiet(Run(Start(ranks, capacity), steps), true) ::
      forall d | d in ranks :: d in Run(Start(ranks, capacity), steps).nodes
                               && Exchanged(Run(Start(ranks, capacity), steps), d)
  }

  /** With two nodes or more, it does exactly if channel 0 is left over. */
  lemma AlwaysExchangesExactly(ranks: set<Rank>, capacity: nat, left: Fields)
    requires Ranks(ranks) && |ranks| >= 2
    ensures AlwaysExchanges(ranks, capacity, left) <==> left.channel == 0
  {
    hide CanRun, Run, Start, Quiet, Exchanged, AskOn;
    if left.channel == 0 {
      forall steps | CanRun(Start(ranks, capacity), steps) && AskOn(steps, left)
                     && Quiet(Run(Start(ranks, capacity), steps), true)
        ensures forall d | d in ranks :: d in Run(Start(ranks, capacity), steps).nodes
                                         && Exchanged(Run(Start(ranks, capacity), steps), d)
      {
        ZeroExchanges(ranks, capacity, steps, left);
      }
    } else {
      var steps := WarmupFails(ranks, capacity, left);
      var d :| d in ranks;
      assert !Exchanged(Run(Start(ranks, capacity), steps), d);
    }
  }
}
