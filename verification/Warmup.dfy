/** The warm-up exchange (clh.c:482-541) between any number of nodes: every
    node sends ten messages to every other and receives ten from it by name.
    Every node is a whole engine, with its pools and its left-over channels. */
module Warmup {
  import opened Protocol
  import opened Sequences
  import opened Matching
  import E = Engine
  import I = Invariant

  /** CONF_WARMUP_LOOP_COUNT */
  const ROUNDS: nat := 10

  /** WARMUP_MSG_SIZE */
  const SIZE: nat := 0x10_0000

  /** A node number, as wide as a sender in a tag's interface. */
  datatype Rank = Rank(id: bv32)

  datatype Route = Route(from: Rank, dest: Rank)

  /** A message on its way, with the tag it was submitted with. */
  datatype Wire = Wire(route: Route, tag: bv64)

  /** `origin` is the payload of every message that has arrived: whose text it
      carries. */
  datatype Node = Node(engine: E.State, origin: seq<Rank>)

  /** `wires` are the messages on their way, `sends` and `asks` the calls so
      far: a receive at d that names r is on the route from r to d. */
  datatype Net = Net(nodes: map<Rank, Node>, wires: multiset<Wire>, sends: multiset<Route>, asks: multiset<Route>)

  /** The tag of clh_send(handle, 0, rank, 0, ...) by node `from`. */
  function WarmTag(from: Rank): bv64 {
    EncodeTag(0, from.id, 0)
  }

  /** clh_recv_from(handle, 0, rank, 0, 0xFFFFFFFF, ...) */
  function Want(rank: Rank): Selector {
    FromSource(0, rank.id, 0, 0xFFFF_FFFF)
  }

  /** Any set of ranks that fit a tag may take part. */
  predicate Ranks(ranks: set<Rank>) {
    forall r | r in ranks :: r.id < 0x100_0000
  }

  function Start(ranks: set<Rank>, capacity: nat): Net {
    Net(map r | r in ranks :: Node(E.Start(capacity), []), multiset{}, multiset{}, multiset{})
  }

  /** The two calls of a turn of the first loop, the workers, the releases of
      the later loops and the network, interleaved in any way. A receive's node
      may hold any left-over fields. */
  datatype Step =
    | Send(d: Rank, r: Rank)
    | Ask(d: Rank, r: Rank, left: Fields)
    | Work(d: Rank, step: E.Step)
    | Deliver(wire: Wire)

  /** What happens inside a node; the worker looks at its receive queue when
      there is something in it. */
  predicate Inside(s: E.State, step: E.Step) {
    match step
    case PullOne => true
    case SubmitSend => true
    case Drain => s.recvQ != []
    case PostNext => true
    case Complete(_) => true
    case Release(_) => true
    case _ => false
  }

  predicate Enabled(net: Net, step: Step) {
    match step
    case Send(d, r) => d in net.nodes && r in net.nodes && d != r && net.sends[Route(d, r)] < ROUNDS
    case Ask(d, r, _) => d in net.nodes && r in net.nodes && d != r && net.asks[Route(r, d)] < ROUNDS
    case Work(d, step) => d in net.nodes && Inside(net.nodes[d].engine, step) && E.Enabled(net.nodes[d].engine, step)
    case Deliver(wire) => wire in net.wires && wire.route.dest in net.nodes
  }

  /** The rank a send goes to. */
  function DestOf(r: E.Request): multiset<Rank> {
    match r.body
    case SendBody(_, dest) => multiset{Rank(dest)}
    case _ => multiset{}
  }

  function Called(n: Node, d: Rank, r: Rank): Node {
    n.(engine := E.DoSend(n.engine, 0, d.id, r.id, 0))
  }

  function Asking(n: Node, r: Rank, left: Fields): Node {
    n.(engine := E.DoRecv(n.engine, Want(r), left))
  }

  function Working(n: Node, step: E.Step): Node
    requires E.Enabled(n.engine, step)
  {
    n.(engine := E.Apply(n.engine, step))
  }

  /** A message from f with this tag reaches the node. */
  function Reached(n: Node, f: Rank, tag: bv64): Node {
    Node(E.DoArrival(n.engine, Message(|n.engine.arrived|, tag, SIZE)), n.origin + [f])
  }

  /** What the step puts on the wire. */
  function OnWire(s: E.State, d: Rank, step: E.Step): multiset<Wire>
    requires E.Enabled(s, step)
  {
    if step.SubmitSend? && Last(s.sendQ).body.SendBody? then
      var b := Last(s.sendQ).body;
      multiset{Wire(Route(d, Rank(b.dest)), b.sendTag)}
    else multiset{}
  }

  function Apply(net: Net, step: Step): Net
    requires Enabled(net, step)
  {
    match step
    case Send(d, r) =>
      net.(nodes := net.nodes[d := Called(net.nodes[d], d, r)], sends := net.sends + multiset{Route(d, r)})
    case Ask(d, r, left) =>
      net.(nodes := net.nodes[d := Asking(net.nodes[d], r, left)], asks := net.asks + multiset{Route(r, d)})
    case Work(d, step) =>
      net.(nodes := net.nodes[d := Working(net.nodes[d], step)],
           wires := net.wires + OnWire(net.nodes[d].engine, d, step))
    case Deliver(Wire(route, tag)) =>
      net.(nodes := net.nodes[route.dest := Reached(net.nodes[route.dest], route.from, tag)],
           wires := net.wires - multiset{step.wire})
  }

  predicate CanRun(net: Net, steps: seq<Step>)
    decreases |steps|
  {
    steps != [] ==> Enabled(net, steps[0]) && CanRun(Apply(net, steps[0]), steps[1..])
  }

  function Run(net: Net, steps: seq<Step>): Net
    requires CanRun(net, steps)
    decreases |steps|
  {
    if steps == [] then net else Run(Apply(net, steps[0]), steps[1..])
  }

  // ----- what a warm-up message and a warm-up receive are -----

  lemma WarmMatch(from: Rank, r: Rank)
    requires from.id < 0x100_0000 && r.id < 0x100_0000
    ensures TagMatches(WarmTag(from), Want(r)) <==> from == r
  {
    hide TagMatches, FromSource;
    DecodeEncode(0, from.id, 0);
    FromSourceMeaning(WarmTag(from), 0, r.id, 0, 0xFFFF_FFFF);
  }

  function SenderRank(tag: bv64): Rank {
    Rank(DecodeTag(tag).senderId)
  }

  lemma RanksShow(r: Rank)
    requires r.id < 0x100_0000
    ensures SenderRank(WarmTag(r)) == r && Chan(WarmTag(r)) == 0
    ensures SenderRank(Want(r).tag) == r && DecodeTag(Want(r).tag).channel == 0 && OneChannel(Want(r))
  {
    DecodeEncode(0, r.id, 0);
    AlwaysOneChannel(0, r.id, 0, 0xFFFF_FFFF);
  }

  /** m carries the text of its sender, a peer. */
  ghost predicate WarmMessage(origin: seq<Rank>, m: Message) {
    m.id < |origin| && m.tag == WarmTag(origin[m.id])
  }

  ghost predicate WarmWant(peers: set<Rank>, want: Selector) {
    SenderRank(want.tag) in peers && want == Want(SenderRank(want.tag))
  }

  ghost predicate WarmRecv(peers: set<Rank>, r: E.Request) {
    r.body.RecvBody? && WarmWant(peers, r.body.want)
  }

  ghost predicate WarmSend(peers: set<Rank>, r: E.Request) {
    r.body.SendBody? && Rank(r.body.dest) in peers
  }

  ghost predicate WarmRequest(peers: set<Rank>, r: E.Request) {
    WarmSend(peers, r) || WarmRecv(peers, r)
  }

  /** Only warm-up messages of peers, all in the list of channel 0, and only
      receives that name peers. */
  ghost predicate IndexOk(peers: set<Rank>, origin: seq<Rank>, x: Index) {
    && |x.lists| == MAX_CHANNELS && (forall c | 0 < c < MAX_CHANNELS :: x.lists[c] == [])
    && (forall m | m in x.lists[0] :: WarmMessage(origin, m))
    && (forall m | m in x.unexpected :: WarmMessage(origin, m))
    && (forall t | t in x.given :: WarmMessage(origin, x.given[t]))
    && (forall p | p in x.posted :: WarmWant(peers, p.want))
  }

  ghost predicate QueuesOk(peers: set<Rank>, s: E.State) {
    && (forall r | r in s.sendQ :: WarmSend(peers, r))
    && (forall r | r in s.recvQ :: WarmRecv(peers, r) && r.body.msg == None)
    && (forall r | r in s.batch :: WarmRecv(peers, r) && r.body.msg == None)
    && (forall r | r in s.ops :: WarmRequest(peers, r))
    && (forall c | c in s.log :: WarmRequest(peers, c.request))
  }

  ghost predicate NodeOk(peers: set<Rank>, n: Node) {
    var s := n.engine;
    && I.Inv(s) && !s.exited && |s.arrived| == |n.origin| && (forall f | f in n.origin :: f in peers)
    && IndexOk(peers, n.origin, s.index) && QueuesOk(peers, s)
  }

  // Who a message, a receive and a completion speak of.
  ghost function SenderOf(m: Message): multiset<Rank> { multiset{SenderRank(m.tag)} }

  ghost function NamedBy(p: Posted): multiset<Rank> { multiset{SenderRank(p.want.tag)} }

  ghost function NamedOf(r: E.Request): multiset<Rank> {
    if r.body.RecvBody? then multiset{SenderRank(r.body.want.tag)} else multiset{}
  }

  ghost function LogNamed(c: E.Completion): multiset<Rank> { NamedOf(c.request) }

  ghost function LogDest(c: E.Completion): multiset<Rank> { DestOf(c.request) }

  /** The receives naming r that were handed over: all but the waiting ones
      have taken one of the messages from r. */
  ghost predicate Even(n: Node, r: Rank) {
    var s, x := n.engine, n.engine.index;
    && x.lists != []
    && Sum(x.lists[0], SenderOf)[r] + Sum(x.unexpected, SenderOf)[r] + Sum(s.ops, NamedOf)[r] + Sum(s.log, LogNamed)[r]
       == Sum(x.posted, NamedBy)[r] + multiset(n.origin)[r]
  }

  /** The receives naming r. */
  ghost function Asked(s: E.State, r: Rank): nat {
    Sum(s.recvQ, NamedOf)[r] + Sum(s.batch, NamedOf)[r] + Sum(s.ops, NamedOf)[r] + Sum(s.log, LogNamed)[r]
  }

  /** The sends to r, and those of them that have left the queue. */
  ghost function SentOut(s: E.State, r: Rank): nat {
    Sum(s.ops, DestOf)[r] + Sum(s.log, LogDest)[r]
  }

  ghost function SentTo(s: E.State, r: Rank): nat {
    Sum(s.sendQ, DestOf)[r] + SentOut(s, r)
  }

  // ----- one node -----

  lemma CalledOk(peers: set<Rank>, n: Node, d: Rank, x: Rank)
    requires NodeOk(peers, n) && x in peers
    ensures NodeOk(peers, Called(n, d, x))
  {
    hide I.Inv, IndexOk, WarmTag, Want, E.AfterNew, E.NodeFor, WarmRecv;
    I.InvKept(n.engine, E.Send(0, d.id, x.id, 0));
  }

  lemma CalledCounts(n: Node, d: Rank, x: Rank, r: Rank)
    ensures var s, s' := n.engine, Called(n, d, x).engine;
            && (Even(n, r) ==> Even(Called(n, d, x), r)) && Asked(s', r) == Asked(s, r)
            && SentOut(s', r) == SentOut(s, r) && SentTo(s', r) == SentTo(s, r) + multiset{x}[r]
  {
    hide Sum, WarmTag, EncodeTag, E.AfterNew, E.NodeFor;
    SumAppend(n.engine.sendQ, Last(Called(n, d, x).engine.sendQ), DestOf);
  }

  lemma AskingOk(peers: set<Rank>, n: Node, x: Rank, left: Fields)
    requires NodeOk(peers, n) && Ranks(peers) && x in peers
    ensures NodeOk(peers, Asking(n, x, left))
  {
    hide I.Inv, IndexOk, Want, WarmSend, E.AfterNew, E.NodeFor;
    RanksShow(x);
    I.InvKept(n.engine, E.Recv(Want(x), left));
  }

  lemma AskingCounts(n: Node, x: Rank, left: Fields, r: Rank)
    requires x.id < 0x100_0000
    ensures var s, s' := n.engine, Asking(n, x, left).engine;
            && (Even(n, r) ==> Even(Asking(n, x, left), r)) && Asked(s', r) == Asked(s, r) + multiset{x}[r]
            && SentOut(s', r) == SentOut(s, r) && SentTo(s', r) == SentTo(s, r)
  {
    hide Sum, Want, E.AfterNew, E.NodeFor, OneChannel;
    RanksShow(x);
    SumAppend(n.engine.recvQ, Last(Asking(n, x, left).engine.recvQ), NamedOf);
  }

  /** Later arrivals do not touch what is known of the messages so far. */
  lemma IndexOkMore(peers: set<Rank>, origin: seq<Rank>, f: Rank, x: Index)
    requires IndexOk(peers, origin, x)
    ensures IndexOk(peers, origin + [f], x)
  {
    hide WarmTag, WarmWant;
  }

  lemma ArriveOk(peers: set<Rank>, origin: seq<Rank>, x: Index, m: Message)
    requires IndexOk(peers, origin, x) && WarmMessage(origin, m)
    ensures IndexOk(peers, origin, Arrive(x, m))
  {
    hide WarmMessage, WarmWant, FirstTaker;
    var i := FirstTaker(x.posted, m);
    if i < |x.posted| {
      WithoutMembers(x.posted, i);
    }
  }

  lemma ReachedOk(peers: set<Rank>, n: Node, f: Rank)
    requires NodeOk(peers, n) && f in peers
    ensures NodeOk(peers, Reached(n, f, WarmTag(f)))
  {
    hide I.Inv, IndexOk, QueuesOk, WarmTag, Arrive;
    var s, m := n.engine, Message(|n.engine.arrived|, WarmTag(f), SIZE);
    I.InvKept(s, E.Arrival(m));
    IndexOkMore(peers, n.origin, f, s.index);
    ArriveOk(peers, n.origin + [f], s.index, m);
    SameQueues(peers, s, Reached(n, f, WarmTag(f)).engine);
  }

  lemma SameQueues(peers: set<Rank>, s: E.State, s': E.State)
    requires QueuesOk(peers, s) && s'.sendQ == s.sendQ && s'.recvQ == s.recvQ && s'.batch == s.batch
    requires s'.ops == s.ops && s'.log == s.log
    ensures QueuesOk(peers, s')
  {
  }

  lemma ReachedCounts(peers: set<Rank>, n: Node, f: Rank, r: Rank)
    requires NodeOk(peers, n) && Ranks(peers) && f in peers
    ensures var s, s' := n.engine, Reached(n, f, WarmTag(f)).engine;
            && (Even(n, r) ==> Even(Reached(n, f, WarmTag(f)), r)) && Asked(s', r) == Asked(s, r)
            && SentOut(s', r) == SentOut(s, r) && SentTo(s', r) == SentTo(s, r)
  {
    hide I.Inv, QueuesOk, Sum, WarmTag, Want, TagMatches, FirstTaker, DecodeTag, Chan, OneChannel;
    var x, m := n.engine.index, Message(|n.engine.arrived|, WarmTag(f), SIZE);
    RanksShow(f);
    var i := FirstTaker(x.posted, m);
    if i < |x.posted| {
      var p := x.posted[i];
      assert p in x.posted;
      WarmMatch(f, SenderRank(p.want.tag));
      SumWithout(x.posted, i, NamedBy);
    } else {
      SumAppend(x.unexpected, m, SenderOf);
    }
  }

  /** What waits to be sent from d has the tag of a warm-up message of d. */
  ghost predicate Tagged(d: Rank, s: E.State) {
    forall r | r in s.sendQ :: r.body.SendBody? && r.body.sendTag == WarmTag(d)
  }

  lemma CalledTagged(d: Rank, n: Node, x: Rank)
    requires Tagged(d, n.engine)
    ensures Tagged(d, Called(n, d, x).engine)
  {
    hide EncodeTag, E.AfterNew, E.NodeFor;
  }

  lemma SameTagged(d: Rank, s: E.State, s': E.State)
    requires Tagged(d, s) && s'.sendQ == s.sendQ
    ensures Tagged(d, s')
  {
  }

  lemma WorkTagged(d: Rank, s: E.State, step: E.Step)
    requires Tagged(d, s) && Inside(s, step) && E.Enabled(s, step)
    ensures Tagged(d, E.Apply(s, step)) && forall x | x in OnWire(s, d, step) :: x.tag == WarmTag(d)
  {
    hide WarmTag, Pull, Post, E.Matched, E.FreeOf, E.WithFree, Without, DecodeTag, SwapRemove;
    match step
    case SubmitSend => assert Last(s.sendQ) in s.sendQ;
    case _ =>
  }

  // ----- the steps inside a node -----

  lemma PullOk(peers: set<Rank>, origin: seq<Rank>, x: Index)
    requires IndexOk(peers, origin, x) && Ranks(peers) && (forall f | f in origin :: f in peers) && x.unexpected != []
    ensures IndexOk(peers, origin, Pull(x)) && Chan(x.unexpected[0].tag) == 0
  {
    hide WarmTag, WarmWant, Chan, DecodeTag, OneChannel;
    var m := x.unexpected[0];
    assert m in x.unexpected;
    RanksShow(origin[m.id]);
  }

  lemma PullCounts(n: Node, r: Rank)
    requires E.Enabled(n.engine, E.PullOne) && Chan(n.engine.index.unexpected[0].tag) == 0 && Even(n, r)
    ensures Even(Working(n, E.PullOne), r)
  {
    hide Sum, Chan;
    var x := n.engine.index;
    SumAppend(x.lists[0], x.unexpected[0], SenderOf);
    SumTail(x.unexpected, SenderOf);
  }

  /** A receive in the batch is handed over. */
  lemma PostOk(peers: set<Rank>, origin: seq<Rank>, x: Index, ticket: nat, c: nat, want: Selector)
    requires IndexOk(peers, origin, x) && WarmWant(peers, want) && c < MAX_CHANNELS
    ensures IndexOk(peers, origin, Post(x, ticket, c, want))
  {
    hide WarmMessage, WarmWant, FirstMatch;
    if HasMatch(x.lists[c], want) {
      var i := FirstMatch(x.lists[c], want);
      assert c == 0 && x.lists[0][i] in x.lists[0];
      WithoutMembers(x.lists[0], i);
    } else {
      var i := FirstMatch(x.unexpected, want);
      if i < |x.unexpected| {
        assert x.unexpected[i] in x.unexpected;
        WithoutMembers(x.unexpected, i);
      }
    }
  }

  /** It waits, or one message of the rank it names is taken. */
  lemma PostMoves(peers: set<Rank>, origin: seq<Rank>, x: Index, ticket: nat, c: nat, want: Selector, r: Rank)
    requires IndexOk(peers, origin, x) && WarmWant(peers, want) && c < MAX_CHANNELS
    requires Ranks(peers) && forall f | f in origin :: f in peers
    ensures var x' := Post(x, ticket, c, want);
            && x'.lists != []
            && Sum(x'.lists[0], SenderOf)[r] + Sum(x'.unexpected, SenderOf)[r] + multiset{SenderRank(want.tag)}[r]
               + Sum(x.posted, NamedBy)[r]
               == Sum(x.lists[0], SenderOf)[r] + Sum(x.unexpected, SenderOf)[r] + Sum(x'.posted, NamedBy)[r]
  {
    hide Sum, WarmTag, Want, TagMatches, FirstMatch, DecodeTag, Chan, OneChannel;
    if HasMatch(x.lists[c], want) {
      var i := FirstMatch(x.lists[c], want);
      assert c == 0 && x.lists[0][i] in x.lists[0];
      TakenFrom(peers, origin, x.lists[0][i], want);
      SumWithout(x.lists[0], i, SenderOf);
    } else {
      var i := FirstMatch(x.unexpected, want);
      if i < |x.unexpected| {
        assert x.unexpected[i] in x.unexpected;
        TakenFrom(peers, origin, x.unexpected[i], want);
        SumWithout(x.unexpected, i, SenderOf);
      } else {
        SumAppend(x.posted, Posted(ticket, want), NamedBy);
      }
    }
  }

  lemma TakenFrom(peers: set<Rank>, origin: seq<Rank>, m: Message, want: Selector)
    requires WarmMessage(origin, m) && WarmWant(peers, want) && TagMatches(m.tag, want)
    requires Ranks(peers) && forall f | f in origin :: f in peers
    ensures SenderRank(m.tag) == SenderRank(want.tag) == origin[m.id]
  {
    hide WarmTag, Want, TagMatches, DecodeTag, Chan, OneChannel;
    RanksShow(origin[m.id]);
    WarmMatch(origin[m.id], SenderRank(want.tag));
  }

  lemma TurnIs(s: E.State)
    requires E.Enabled(s, E.PostNext) && s.batch[0].body.msg == None
    ensures var r, s' := s.batch[0], E.DoPostNext(s);
            && s'.index == Post(s.index, r.ticket, r.fields.channel as nat, r.body.want)
            && s'.batch == s.batch[1..] && |s'.ops| == |s.ops| + 1 && s'.ops == s.ops + [Last(s'.ops)]
            && Last(s'.ops).body.RecvBody? && Last(s'.ops).body.want == r.body.want
            && s' == s.(batch := s'.batch, ops := s'.ops, index := s'.index)
  {
    hide Post, HasMatch, FirstMatch, DecodeTag;
  }

  lemma PostNextOk(peers: set<Rank>, n: Node)
    requires NodeOk(peers, n) && E.Enabled(n.engine, E.PostNext)
    ensures NodeOk(peers, Working(n, E.PostNext))
  {
    hide I.Inv, IndexOk, WarmWant, Post, E.DoPostNext;
    var s := n.engine;
    var r := s.batch[0];
    assert r in s.batch;
    I.InvKept(s, E.PostNext);
    TurnIs(s);
    PostOk(peers, n.origin, s.index, r.ticket, r.fields.channel as nat, r.body.want);
  }

  lemma PostNextCounts(peers: set<Rank>, n: Node, r: Rank)
    requires NodeOk(peers, n) && Ranks(peers) && E.Enabled(n.engine, E.PostNext)
    ensures Even(n, r) ==> Even(Working(n, E.PostNext), r)
    ensures SameCounts(n.engine, Working(n, E.PostNext).engine, r)
    ensures Working(n, E.PostNext).engine.sendQ == n.engine.sendQ
  {
    hide I.Inv, IndexOk, WarmWant, Post, E.DoPostNext, Sum;
    var s, s' := n.engine, E.DoPostNext(n.engine);
    var b := s.batch[0];
    assert b in s.batch;
    TurnIs(s);
    IndexLists(peers, n.origin, s.index);
    PostMoves(peers, n.origin, s.index, b.ticket, b.fields.channel as nat, b.body.want, r);
    SumTail(s.batch, NamedOf);
    SumAppend(s.ops, Last(s'.ops), NamedOf);
    SumAppend(s.ops, Last(s'.ops), DestOf);
  }

  lemma IndexLists(peers: set<Rank>, origin: seq<Rank>, x: Index)
    requires IndexOk(peers, origin, x)
    ensures x.lists != []
  {
  }

  /** Asked and sent are the same in both states. */
  ghost predicate SameCounts(s: E.State, s': E.State, r: Rank) {
    Asked(s', r) == Asked(s, r) && SentTo(s', r) == SentTo(s, r)
  }

  lemma CompleteOk(peers: set<Rank>, n: Node, i: nat)
    requires NodeOk(peers, n) && E.Enabled(n.engine, E.Complete(i))
    ensures NodeOk(peers, Working(n, E.Complete(i)))
  {
    hide I.Inv, IndexOk, WarmWant, DecodeTag, SwapRemove;
    var s := n.engine;
    assert s.ops[i] in s.ops;
    I.InvKept(s, E.Complete(i));
    SwapRemoveMembers(s.ops, i);
  }

  lemma SameBody(s: E.State, r: E.Request)
    ensures NamedOf(E.Finished(s, r)) == NamedOf(r) && DestOf(E.Finished(s, r)) == DestOf(r)
  {
  }

  lemma CompleteCounts(n: Node, i: nat, r: Rank)
    requires E.Enabled(n.engine, E.Complete(i))
    ensures var s' := E.DoComplete(n.engine, i);
            && (Even(n, r) ==> Even(Working(n, E.Complete(i)), r)) && SameCounts(n.engine, s', r)
            && SentOut(s', r) == SentOut(n.engine, r) && s'.sendQ == n.engine.sendQ
  {
    hide Sum, SwapRemove, DecodeTag, E.Finished, E.MessageOf, NamedOf, DestOf;
    var s, s' := n.engine, E.DoComplete(n.engine, i);
    SameBody(s, s.ops[i]);
    SumSwapRemove(s.ops, i, NamedOf);
    SumSwapRemove(s.ops, i, DestOf);
    SumAppend(s.log, Last(s'.log), LogNamed);
    SumAppend(s.log, Last(s'.log), LogDest);
  }

  lemma SubmitOk(peers: set<Rank>, n: Node)
    requires NodeOk(peers, n) && E.Enabled(n.engine, E.SubmitSend)
    ensures NodeOk(peers, Working(n, E.SubmitSend))
  {
    hide I.Inv, IndexOk, WarmWant;
    var s := n.engine;
    assert Last(s.sendQ) in s.sendQ;
    I.InvKept(s, E.SubmitSend);
  }

  lemma SubmitCounts(peers: set<Rank>, n: Node, r: Rank)
    requires NodeOk(peers, n) && E.Enabled(n.engine, E.SubmitSend)
    ensures var s, s' := n.engine, E.DoSubmitSend(n.engine);
            && (Even(n, r) ==> Even(Working(n, E.SubmitSend), r)) && SameCounts(s, s', r)
            && Last(s.sendQ).body.SendBody? && Rank(Last(s.sendQ).body.dest) in peers
            && Sum(s'.sendQ, DestOf)[r] + multiset{Rank(Last(s.sendQ).body.dest)}[r] == Sum(s.sendQ, DestOf)[r]
  {
    hide I.Inv, IndexOk, WarmWant, Sum;
    var s, s' := n.engine, E.DoSubmitSend(n.engine);
    assert Last(s.sendQ) in s.sendQ;
    SumDropLast(s.sendQ, DestOf);
    SumAppend(s.ops, Last(s.sendQ), DestOf);
    SumAppend(s.ops, Last(s.sendQ), NamedOf);
  }

  lemma DrainCounts(n: Node, r: Rank)
    requires E.Enabled(n.engine, E.Drain)
    ensures (Even(n, r) ==> Even(Working(n, E.Drain), r)) && SameCounts(n.engine, E.DoDrain(n.engine), r)
  {
  }

  /** Every step inside a node keeps what holds of it. */
  lemma WorkOk(peers: set<Rank>, n: Node, step: E.Step)
    requires NodeOk(peers, n) && Ranks(peers) && Inside(n.engine, step) && E.Enabled(n.engine, step)
    ensures NodeOk(peers, Working(n, step))
  {
    hide I.Inv, IndexOk, WarmWant, Pull, E.DoPostNext, E.DoComplete, E.DoSubmitSend, E.FreeOf, E.WithFree, Without,
      WarmRequest;
    match step
    case PullOne =>
      I.InvKept(n.engine, step);
      PullOk(peers, n.origin, n.engine.index);
    case SubmitSend => SubmitOk(peers, n);
    case PostNext => PostNextOk(peers, n);
    case Complete(i) => CompleteOk(peers, n, i);
    case Drain => I.InvKept(n.engine, step);
    case Release(i) => I.InvKept(n.engine, step);
  }

  /** And its counts: a send that leaves the queue goes on the wire. */
  lemma WorkCounts(peers: set<Rank>, n: Node, d: Rank, step: E.Step, r: Rank)
    requires NodeOk(peers, n) && Ranks(peers) && Inside(n.engine, step) && E.Enabled(n.engine, step)
    requires Tagged(d, n.engine)
    ensures Even(n, r) ==> Even(Working(n, step), r)
    ensures SameCounts(n.engine, E.Apply(n.engine, step), r)
    ensures Sum(E.Apply(n.engine, step).sendQ, DestOf)[r] + OnWire(n.engine, d, step)[Warm(d, r)]
            == Sum(n.engine.sendQ, DestOf)[r]
    ensures forall x | x in OnWire(n.engine, d, step) ::
              x.route.from == d && x.route.dest in peers && x.tag == WarmTag(d)
  {
    hide WarmTag, I.Inv, IndexOk, QueuesOk, Pull, E.DoPostNext, E.DoComplete, E.DoSubmitSend, E.FreeOf, E.WithFree,
      Without, Sum;
    match step
    case PullOne =>
      PullOk(peers, n.origin, n.engine.index);
      if Even(n, r) { PullCounts(n, r); }
    case SubmitSend =>
      SubmitCounts(peers, n, r);
      assert Last(n.engine.sendQ) in n.engine.sendQ;
    case PostNext => PostNextCounts(peers, n, r);
    case Complete(i) => CompleteCounts(n, i, r);
    case Drain => DrainCounts(n, r);
    case Release(i) =>
  }

  // ----- all nodes together -----

  ghost predicate Pair(net: Net, x: Route) {
    x.from in net.nodes && x.dest in net.nodes && x.from != x.dest
  }

  ghost predicate RoutesOk(net: Net) {
    && Ranks(net.nodes.Keys)
    && (forall x | x in net.sends :: Pair(net, x) && net.sends[x] <= ROUNDS)
    && (forall x | x in net.asks :: Pair(net, x) && net.asks[x] <= ROUNDS)
    && (forall x | x in net.wires :: Pair(net, x.route) && x.tag == WarmTag(x.route.from))
  }

  ghost predicate NodesOk(net: Net) {
    forall d | d in net.nodes :: NodeOk(net.nodes.Keys - {d}, net.nodes[d])
  }

  ghost predicate TagsOk(net: Net) {
    forall d | d in net.nodes :: Tagged(d, net.nodes[d].engine)
  }

  /** A warm-up message on its way from r to d. */
  function Warm(r: Rank, d: Rank): Wire {
    Wire(Route(r, d), WarmTag(r))
  }

  /** What d's engine has of r is what was asked for and sent. */
  ghost predicate Counted(net: Net, d: Rank, r: Rank)
    requires d in net.nodes
  {
    var n := net.nodes[d];
    Even(n, r) && Asked(n.engine, r) == net.asks[Route(r, d)] && SentTo(n.engine, r) == net.sends[Route(d, r)]
  }

  /** Every message from r to d is in r's queue, on its way or has arrived. */
  ghost predicate Carried(net: Net, r: Rank, d: Rank)
    requires r in net.nodes && d in net.nodes
  {
    net.sends[Route(r, d)]
    == net.wires[Warm(r, d)] + Sum(net.nodes[r].engine.sendQ, DestOf)[d] + multiset(net.nodes[d].origin)[r]
  }

  ghost predicate AllCounted(net: Net) {
    && (forall d, r | d in net.nodes :: Counted(net, d, r))
    && (forall r, d | r in net.nodes && d in net.nodes :: Carried(net, r, d))
  }

  ghost predicate Inv(net: Net) {
    RoutesOk(net) && NodesOk(net) && TagsOk(net) && AllCounted(net)
  }

  lemma StartNode(peers: set<Rank>, capacity: nat)
    ensures NodeOk(peers, Node(E.Start(capacity), []))
    ensures forall r :: Even(Node(E.Start(capacity), []), r) && Asked(E.Start(capacity), r) == 0
    ensures forall r :: SentTo(E.Start(capacity), r) == 0
    ensures E.Start(capacity).sendQ == []
  {
    hide I.Inv, E.Start;
    I.StartInv(capacity);
    I.StartBlank(capacity);
  }

  lemma StartInv(ranks: set<Rank>, capacity: nat)
    requires Ranks(ranks)
    ensures Inv(Start(ranks, capacity)) && Start(ranks, capacity).nodes.Keys == ranks
  {
    hide NodeOk, E.Start, Even, Asked, SentTo, Sum;
    var net := Start(ranks, capacity);
    assert net.nodes.Keys == ranks;
    forall d | d in net.nodes
      ensures NodeOk(net.nodes.Keys - {d}, net.nodes[d])
    {
      StartNode(net.nodes.Keys - {d}, capacity);
    }
    forall d | d in net.nodes
      ensures Tagged(d, net.nodes[d].engine)
    {
      StartNode(ranks - {d}, capacity);
    }
    forall d, r | d in net.nodes
      ensures Counted(net, d, r)
    {
      StartNode(ranks - {d}, capacity);
    }
    forall r, d | r in net.nodes && d in net.nodes
      ensures Carried(net, r, d)
    {
      StartNode(ranks - {r}, capacity);
      assert net.nodes[r].engine.sendQ == [] && net.nodes[d].origin == [];
      NothingSummed();
    }
  }

  lemma NothingSummed()
    ensures Sum([], DestOf) == multiset{}
  {
  }

  /** One node changes, and stays what it should be. */
  lemma NodeChange(net: Net, net': Net, d: Rank)
    requires NodesOk(net) && d in net.nodes && d in net'.nodes && net'.nodes == net.nodes[d := net'.nodes[d]]
    requires NodeOk(net.nodes.Keys - {d}, net'.nodes[d]) && TagsOk(net) && Tagged(d, net'.nodes[d].engine)
    ensures NodesOk(net') && TagsOk(net') && net'.nodes.Keys == net.nodes.Keys
  {
    hide NodeOk, Tagged;
    assert net'.nodes.Keys == net.nodes.Keys;
  }

  lemma OneMore<T>(bag: multiset<T>, x: T)
    ensures forall y :: (bag + multiset{x})[y] == bag[y] + (if y == x then 1 else 0)
    ensures forall y | y in bag + multiset{x} :: y in bag || y == x
  {
  }

  lemma OneLess<T>(bag: multiset<T>, x: T, y: T)
    requires x in bag
    ensures (bag - multiset{x})[y] == bag[y] - (if y == x then 1 else 0)
  {
  }

  lemma SendCounted(net: Net, net': Net, d: Rank, r: Rank, e: Rank, x: Rank)
    requires Enabled(net, Send(d, r)) && net' == Apply(net, Send(d, r)) && e in net.nodes && Counted(net, e, x)
    ensures e in net'.nodes && Counted(net', e, x)
  {
    hide E.Enabled, E.Apply, Inside, OnWire, Working, Called, Even, Asked, SentTo;
    OneMore(net.sends, Route(d, r));
    if e == d { CalledCounts(net.nodes[d], d, r, x); }
  }

  lemma SendCarried(net: Net, net': Net, d: Rank, r: Rank, x: Rank, e: Rank)
    requires Enabled(net, Send(d, r)) && net' == Apply(net, Send(d, r))
    requires x in net.nodes && e in net.nodes && Carried(net, x, e)
    ensures x in net'.nodes && e in net'.nodes && Carried(net', x, e)
  {
    hide E.Enabled, E.Apply, Inside, OnWire, Working, Called, Sum;
    OneMore(net.sends, Route(d, r));
    CalledQueue(net.nodes[d], d, r, e);
  }

  lemma SendInv(net: Net, d: Rank, r: Rank)
    requires Inv(net) && Enabled(net, Send(d, r))
    ensures Inv(Apply(net, Send(d, r)))
  {
    hide E.Enabled, E.Apply, Inside, OnWire, Working, NodeOk, Called, Counted, Carried, NodesOk, Tagged, WarmTag;
    var net', n := Apply(net, Send(d, r)), net.nodes[d];
    PeersOk(net, d);
    CalledOk(net.nodes.Keys - {d}, n, d, r);
    CalledTagged(d, n, r);
    NodeChange(net, net', d);
    OneMore(net.sends, Route(d, r));
    forall e, x | e in net'.nodes
      ensures Counted(net', e, x)
    {
      SendCounted(net, net', d, r, e, x);
    }
    forall x, e | x in net'.nodes && e in net'.nodes
      ensures Carried(net', x, e)
    {
      SendCarried(net, net', d, r, x, e);
    }
  }

  lemma PeersOk(net: Net, d: Rank)
    requires RoutesOk(net) && NodesOk(net) && d in net.nodes
    ensures NodeOk(net.nodes.Keys - {d}, net.nodes[d]) && Ranks(net.nodes.Keys - {d})
  {
    hide NodeOk;
  }

  lemma CalledQueue(n: Node, d: Rank, x: Rank, r: Rank)
    ensures Sum(Called(n, d, x).engine.sendQ, DestOf)[r] == Sum(n.engine.sendQ, DestOf)[r] + multiset{x}[r]
    ensures Called(n, d, x).origin == n.origin
  {
    hide Sum, WarmTag, EncodeTag, E.AfterNew, E.NodeFor;
    SumAppend(n.engine.sendQ, Last(Called(n, d, x).engine.sendQ), DestOf);
  }

  lemma AskCounted(net: Net, net': Net, d: Rank, r: Rank, left: Fields, e: Rank, x: Rank)
    requires Enabled(net, Ask(d, r, left)) && net' == Apply(net, Ask(d, r, left)) && r.id < 0x100_0000
    requires e in net.nodes && Counted(net, e, x)
    ensures e in net'.nodes && Counted(net', e, x)
  {
    hide E.Enabled, E.Apply, Inside, OnWire, Working, Asking, Even, Asked, SentTo;
    OneMore(net.asks, Route(r, d));
    if e == d { AskingCounts(net.nodes[d], r, left, x); }
  }

  lemma AskCarried(net: Net, net': Net, d: Rank, r: Rank, left: Fields, x: Rank, e: Rank)
    requires Enabled(net, Ask(d, r, left)) && net' == Apply(net, Ask(d, r, left))
    requires x in net.nodes && e in net.nodes && Carried(net, x, e)
    ensures x in net'.nodes && e in net'.nodes && Carried(net', x, e)
  {
    hide E.Enabled, E.Apply, Inside, OnWire, Working, Asking, Sum;
    AskingQueue(net.nodes[d], r, left);
  }

  lemma AskInv(net: Net, d: Rank, r: Rank, left: Fields)
    requires Inv(net) && Enabled(net, Ask(d, r, left))
    ensures Inv(Apply(net, Ask(d, r, left)))
  {
    hide E.Enabled, E.Apply, Inside, OnWire, Working, NodeOk, Asking, Counted, Carried, NodesOk, Tagged, WarmTag;
    var net', n := Apply(net, Ask(d, r, left)), net.nodes[d];
    PeersOk(net, d);
    assert r in net.nodes.Keys;
    AskingOk(net.nodes.Keys - {d}, n, r, left);
    AskingQueue(n, r, left);
    SameTagged(d, n.engine, Asking(n, r, left).engine);
    NodeChange(net, net', d);
    OneMore(net.asks, Route(r, d));
    forall e, x | e in net'.nodes
      ensures Counted(net', e, x)
    {
      AskCounted(net, net', d, r, left, e, x);
    }
    forall x, e | x in net'.nodes && e in net'.nodes
      ensures Carried(net', x, e)
    {
      AskCarried(net, net', d, r, left, x, e);
    }
  }

  lemma AskingQueue(n: Node, r: Rank, left: Fields)
    ensures Asking(n, r, left).engine.sendQ == n.engine.sendQ && Asking(n, r, left).origin == n.origin
  {
    hide Want, E.AfterNew, E.NodeFor;
  }

  lemma WorkInv(net: Net, d: Rank, step: E.Step)
    requires Inv(net) && Enabled(net, Work(d, step))
    ensures Inv(Apply(net, Work(d, step)))
  {
    hide NodeOk, Even, Asked, SentTo, Sum, Inside, E.Enabled, E.Apply, OnWire, NodesOk, Tagged, WarmTag;
    var net', n, peers := Apply(net, Work(d, step)), net.nodes[d], net.nodes.Keys - {d};
    PeersOk(net, d);
    WorkOk(peers, n, step);
    WorkTagged(d, n.engine, step);
    WorkCounts(peers, n, d, step, d);
    NodeChange(net, net', d);
    forall e, x | e in net'.nodes
      ensures Counted(net', e, x)
    {
      assert Counted(net, e, x);
      if e == d { WorkCounts(peers, n, d, step, x); }
    }
    forall x, e | x in net'.nodes && e in net'.nodes
      ensures Carried(net', x, e)
    {
      assert Carried(net, x, e);
      WorkCounts(peers, n, d, step, e);
    }
  }

  lemma ReachedRest(n: Node, f: Rank, tag: bv64)
    ensures Reached(n, f, tag).engine.sendQ == n.engine.sendQ
    ensures forall r :: multiset(Reached(n, f, tag).origin)[r] == multiset(n.origin)[r] + if r == f then 1 else 0
  {
    hide WarmTag, Arrive;
  }

  lemma DeliverCounted(net: Net, net': Net, wire: Wire, e: Rank, x: Rank)
    requires Enabled(net, Deliver(wire)) && net' == Apply(net, Deliver(wire))
    requires RoutesOk(net) && NodesOk(net) && e in net.nodes && Counted(net, e, x)
    ensures e in net'.nodes && Counted(net', e, x)
  {
    hide E.Enabled, E.Apply, Inside, OnWire, Working, NodeOk, Reached, Even, Asked, SentTo, Sum, NodesOk;
    var d := wire.route.dest;
    assert Pair(net, wire.route);
    PeersOk(net, d);
    if e == d { ReachedCounts(net.nodes.Keys - {d}, net.nodes[d], wire.route.from, x); }
  }

  lemma DeliverCarried(net: Net, net': Net, wire: Wire, x: Rank, e: Rank)
    requires Enabled(net, Deliver(wire)) && net' == Apply(net, Deliver(wire))
    requires x in net.nodes && e in net.nodes && Carried(net, x, e) && wire.tag == WarmTag(wire.route.from)
    ensures x in net'.nodes && e in net'.nodes && Carried(net', x, e)
  {
    hide E.Enabled, E.Apply, Inside, OnWire, Working, Reached, Sum, WarmTag;
    ReachedRest(net.nodes[wire.route.dest], wire.route.from, wire.tag);
    assert net'.wires == net.wires - multiset{wire};
    OneLess(net.wires, wire, Warm(x, e));
    assert wire == Warm(x, e) <==> wire.route == Route(x, e);
  }

  lemma DeliverInv(net: Net, wire: Wire)
    requires Inv(net) && Enabled(net, Deliver(wire))
    ensures Inv(Apply(net, Deliver(wire)))
  {
    hide E.Enabled, E.Apply, Inside, OnWire, Working, NodeOk, Reached, Counted, Carried, NodesOk, Tagged, WarmTag;
    var net', d := Apply(net, Deliver(wire)), wire.route.dest;
    assert Pair(net, wire.route);
    PeersOk(net, d);
    ReachedOk(net.nodes.Keys - {d}, net.nodes[d], wire.route.from);
    ReachedRest(net.nodes[d], wire.route.from, wire.tag);
    SameTagged(d, net.nodes[d].engine, net'.nodes[d].engine);
    NodeChange(net, net', d);
    OneMore(net'.wires, wire);
    forall e, x | e in net'.nodes
      ensures Counted(net', e, x)
    {
      DeliverCounted(net, net', wire, e, x);
    }
    forall x, e | x in net'.nodes && e in net'.nodes
      ensures Carried(net', x, e)
    {
      DeliverCarried(net, net', wire, x, e);
    }
  }

  lemma StepInv(net: Net, step: Step)
    requires Inv(net) && Enabled(net, step)
    ensures Inv(Apply(net, step)) && Apply(net, step).nodes.Keys == net.nodes.Keys
  {
    hide Inv, E.Apply, E.Enabled;
    match step
    case Send(d, r) => SendInv(net, d, r);
    case Ask(d, r, left) => AskInv(net, d, r, left);
    case Work(d, inner) => WorkInv(net, d, inner);
    case Deliver(wire) => DeliverInv(net, wire);
  }

  lemma {:induction false} RunInv(net: Net, steps: seq<Step>)
    requires Inv(net) && CanRun(net, steps)
    ensures Inv(Run(net, steps)) && Run(net, steps).nodes.Keys == net.nodes.Keys
    decreases |steps|
  {
    hide Inv, Apply, Enabled;
    if steps != [] {
      StepInv(net, steps[0]);
      RunInv(Apply(net, steps[0]), steps[1..]);
    }
  }
}
