/** The warm-up exchange comes to an end: no run of it is longer than a hundred
    and ten steps for each pair of nodes, and any run can be carried on to where
    nothing more can happen. */
module WarmupEnds {
  import opened Protocol
  import opened Matching
  import opened Warmup
  import E = Engine
  import I = Invariant

  // ----- every step brings the end nearer -----

  /** What is left to do inside a node. */
  ghost function Weight(s: E.State): nat {
    5 * |s.sendQ| + 4 * |s.recvQ| + 3 * |s.batch| + 2 * |s.ops| + |s.user| + |s.index.unexpected|
  }

  lemma PostLeaves(x: Index, ticket: nat, c: nat, want: Selector)
    requires Shaped(x) && c < MAX_CHANNELS
    ensures |Post(x, ticket, c, want).unexpected| <= |x.unexpected|
  {
    hide FirstMatch;
  }

  lemma TurnLighter(s: E.State)
    requires E.Enabled(s, E.PostNext)
    ensures Weight(E.DoPostNext(s)) < Weight(s)
  {
    hide Post, HasMatch, FirstMatch, DecodeTag;
    var r := s.batch[0];
    PostLeaves(s.index, r.ticket, r.fields.channel as nat, r.body.want);
  }

  lemma WorkLighter(s: E.State, d: Rank, step: E.Step)
    requires Inside(s, step) && E.Enabled(s, step)
    ensures Weight(E.Apply(s, step)) + 2 * |OnWire(s, d, step)| < Weight(s)
  {
    hide E.DoPostNext, E.FreeOf, E.WithFree, DecodeTag;
    match step
    case PostNext => TurnLighter(s);
    case PullOne =>
    case SubmitSend =>
    case Drain =>
    case Complete(_) =>
    case Release(_) =>
  }

  lemma CalledWeight(n: Node, d: Rank, x: Rank)
    ensures Weight(Called(n, d, x).engine) == Weight(n.engine) + 5
  {
    hide EncodeTag, E.AfterNew, E.NodeFor;
  }

  lemma AskingWeight(n: Node, x: Rank, left: Fields)
    ensures Weight(Asking(n, x, left).engine) == Weight(n.engine) + 4
  {
    hide Want, E.AfterNew, E.NodeFor;
  }

  lemma ReachedWeight(n: Node, f: Rank, tag: bv64)
    ensures Weight(Reached(n, f, tag).engine) <= Weight(n.engine) + 1
  {
    hide FirstTaker;
  }

  ghost function Heavy(nodes: map<Rank, Node>): nat
    decreases |nodes|
  {
    if nodes == map[] then 0
    else
      var d :| d in nodes;
      Weight(nodes[d].engine) + Heavy(nodes - {d})
  }

  lemma {:induction false} HeavyPick(nodes: map<Rank, Node>, d: Rank)
    requires d in nodes
    ensures Heavy(nodes) == Weight(nodes[d].engine) + Heavy(nodes - {d})
    decreases |nodes|
  {
    hide Weight;
    var e :| e in nodes && Heavy(nodes) == Weight(nodes[e].engine) + Heavy(nodes - {e});
    if e != d {
      HeavyPick(nodes - {e}, d);
      HeavyPick(nodes - {d}, e);
      assert nodes - {e} - {d} == nodes - {d} - {e};
    }
  }

  lemma HeavyChange(nodes: map<Rank, Node>, d: Rank, n: Node)
    requires d in nodes
    ensures Heavy(nodes[d := n]) + Weight(nodes[d].engine) == Heavy(nodes) + Weight(n.engine)
  {
    hide Weight, Heavy;
    HeavyPick(nodes, d);
    HeavyPick(nodes[d := n], d);
    assert nodes[d := n] - {d} == nodes - {d};
  }

  /** The calls that each of the two kinds can have. */
  function Calls(ranks: set<Rank>): nat {
    ROUNDS * (|ranks| * |ranks|)
  }

  ghost function Left(net: Net): int {
    6 * (Calls(net.nodes.Keys) - |net.sends|) + 5 * (Calls(net.nodes.Keys) - |net.asks|) + 2 * |net.wires|
    + Heavy(net.nodes)
  }

  lemma StepLeft(net: Net, step: Step)
    requires Enabled(net, step)
    ensures Left(Apply(net, step)) < Left(net)
  {
    hide Weight, Called, Asking, Reached, OnWire, E.Enabled, E.Apply, Inside, Calls;
    var net' := Apply(net, step);
    match step
    case Send(d, r) =>
      CalledWeight(net.nodes[d], d, r);
      HeavyChange(net.nodes, d, net'.nodes[d]);
      assert net'.nodes.Keys == net.nodes.Keys;
    case Ask(d, r, left) =>
      AskingWeight(net.nodes[d], r, left);
      HeavyChange(net.nodes, d, net'.nodes[d]);
      assert net'.nodes.Keys == net.nodes.Keys;
    case Work(d, inner) =>
      WorkLighter(net.nodes[d].engine, d, inner);
      HeavyChange(net.nodes, d, net'.nodes[d]);
      assert net'.nodes.Keys == net.nodes.Keys;
    case Deliver(Wire(route, tag)) =>
      ReachedWeight(net.nodes[route.dest], route.from, tag);
      HeavyChange(net.nodes, route.dest, net'.nodes[route.dest]);
      assert net'.nodes.Keys == net.nodes.Keys;
  }

  lemma {:induction false} RunLeft(net: Net, steps: seq<Step>)
    requires CanRun(net, steps)
    ensures Left(Run(net, steps)) + |steps| <= Left(net)
    decreases |steps|
  {
    hide Apply, Enabled, Left;
    if steps != [] {
      StepLeft(net, steps[0]);
      RunLeft(Apply(net, steps[0]), steps[1..]);
    }
  }

  // ----- counting -----

  lemma {:induction false} BagBound<T>(bag: multiset<T>, keys: set<T>, b: nat)
    requires forall x | x in bag :: x in keys && bag[x] <= b
    ensures |bag| <= b * |keys|
    decreases |keys|
  {
    if keys == {} {
      assert bag == multiset{};
    } else {
      var x :| x in keys;
      var rest := bag[x := 0];
      BagBound(rest, keys - {x}, b);
      assert |bag| == |rest| + bag[x];
      assert b * |keys| == b * |keys - {x}| + b;
    }
  }

  /** There are at most |ranks| * |ranks| routes. */
  lemma {:induction false} RoutesBound(keys: set<Route>, froms: set<Rank>, dests: set<Rank>)
    requires forall k | k in keys :: k.from in froms && k.dest in dests
    ensures |keys| <= |froms| * |dests|
    decreases |froms|
  {
    if froms == {} {
      assert keys == {};
    } else {
      var x :| x in froms;
      var row := set k | k in keys && k.from == x;
      RowBound(row, x, dests);
      RoutesBound(keys - row, froms - {x}, dests);
      assert |keys| == |keys - row| + |row|;
      assert |froms| == |froms - {x}| + 1;
    }
  }

  lemma {:induction false} RowBound(row: set<Route>, from: Rank, dests: set<Rank>)
    requires forall k | k in row :: k.from == from && k.dest in dests
    ensures |row| <= |dests|
    decreases |row|
  {
    if row != {} {
      var k :| k in row;
      RowBound(row - {k}, from, dests - {k.dest});
    }
  }

  lemma CallsBound(ranks: set<Rank>, bag: multiset<Route>)
    requires forall x | x in bag :: x.from in ranks && x.dest in ranks && bag[x] <= ROUNDS
    ensures |bag| <= Calls(ranks)
  {
    var keys := set x | x in bag;
    BagBound(bag, keys, ROUNDS);
    RoutesBound(keys, ranks, ranks);
  }

  lemma LeftBound(net: Net)
    requires Inv(net)
    ensures Left(net) >= 0
  {
    hide Calls, NodesOk, AllCounted;
    CallsBound(net.nodes.Keys, net.sends);
    CallsBound(net.nodes.Keys, net.asks);
  }

  lemma {:induction false} StartHeavy(nodes: map<Rank, Node>)
    requires forall d | d in nodes :: Weight(nodes[d].engine) == 0
    ensures Heavy(nodes) == 0
    decreases |nodes|
  {
    hide Weight;
    if nodes != map[] {
      var d :| d in nodes && Heavy(nodes) == Weight(nodes[d].engine) + Heavy(nodes - {d});
      StartHeavy(nodes - {d});
    }
  }

  lemma StartLeft(ranks: set<Rank>, capacity: nat)
    ensures Left(Start(ranks, capacity)) == 11 * Calls(ranks)
  {
    hide E.Start, Calls;
    I.StartBlank(capacity);
    StartHeavy(Start(ranks, capacity).nodes);
    assert Start(ranks, capacity).nodes.Keys == ranks;
  }

  /** No run is longer than this, whatever the nodes hold. */
  lemma EveryRunEnds(ranks: set<Rank>, capacity: nat, steps: seq<Step>)
    requires Ranks(ranks) && CanRun(Start(ranks, capacity), steps)
    ensures |steps| <= 110 * (|ranks| * |ranks|)
  {
    hide Inv, CanRun, Run, Left, Start;
    StartInv(ranks, capacity);
    RunInv(Start(ranks, capacity), steps);
    StartLeft(ranks, capacity);
    RunLeft(Start(ranks, capacity), steps);
    LeftBound(Run(Start(ranks, capacity), steps));
  }

  // ----- carried on -----

  /** Nothing more can happen, or nothing but new receives. */
  ghost predicate Quiet(net: Net, asking: bool) {
    forall step :: Enabled(net, step) ==> step.Ask? && !asking
  }

  /** The receives of a run are on nodes that hold `left`. */
  predicate AskOn(steps: seq<Step>, left: Fields) {
    forall i | 0 <= i < |steps| :: steps[i].Ask? ==> steps[i].left == left
  }

  predicate NoAsk(steps: seq<Step>) {
    forall i | 0 <= i < |steps| :: !steps[i].Ask?
  }

  lemma {:induction false} RunsOn(net: Net, a: seq<Step>, b: seq<Step>)
    requires CanRun(net, a) && CanRun(Run(net, a), b)
    ensures CanRun(net, a + b) && Run(net, a + b) == Run(Run(net, a), b)
    decreases |a|
  {
    hide Apply, Enabled;
    if a == [] {
      assert a + b == b;
    } else {
      RunsOn(Apply(net, a[0]), a[1..], b);
      assert (a + b)[0] == a[0] && (a + b)[1..] == a[1..] + b;
    }
  }

  /** A run can be carried on to where nothing more can happen, with receives on
      nodes that hold what one likes, or without new receives. */
  lemma {:induction false} CarriedOn(net: Net, left: Fields, asking: bool) returns (more: seq<Step>)
    requires Inv(net)
    ensures CanRun(net, more) && Quiet(Run(net, more), asking)
    ensures AskOn(more, left) && (!asking ==> NoAsk(more))
    decreases Left(net)
  {
    hide Inv, Apply, Enabled, Left;
    if Quiet(net, asking) {
      more := [];
    } else {
      var step := NextStep(net, left, asking);
      StepInv(net, step);
      StepLeft(net, step);
      LeftBound(net);
      var rest := CarriedOn(Apply(net, step), left, asking);
      more := [step] + rest;
      assert more[0] == step && more[1..] == rest;
    }
  }

  lemma NextStep(net: Net, left: Fields, asking: bool) returns (step: Step)
    requires !Quiet(net, asking)
    ensures Enabled(net, step) && (step.Ask? ==> asking && step.left == left)
  {
    hide E.Enabled, Inside;
    step :| Enabled(net, step) && !(step.Ask? && !asking);
    if step.Ask? {
      step := Ask(step.d, step.r, left);
    }
  }
}
