/** request_queues (clh.c:445-447): the three lists of request nodes, and the
    chain that clh_list_get_all_nodes has detached from the receive list. */
module RequestLists {
  import opened Sequences
  import opened Requests
  import E = Engine
  import L = List

  /** A request's node carries no data of its own: the request lies behind it. */
  type Node = L.Node<()>

  const DETACHED: nat := 6

  function ItemsMark(k: E.Kind): nat {
    match k case SendKind => 0 case RecvKind => 1 case ProbeKind => 2
  }

  function FreeMark(k: E.Kind): nat {
    match k case SendKind => 3 case RecvKind => 4 case ProbeKind => 5
  }

  ghost predicate Marked(q: seq<Node>, mark: nat)
    reads q
  {
    forall n | n in q :: n.chain == mark
  }

  ghost predicate Unshared(a: seq<Node>, b: seq<Node>) {
    forall i, j | 0 <= i < |a| && 0 <= j < |b| :: a[i] != b[j]
  }

  /** A well-formed list whose nodes know where they are. */
  ghost predicate Kept(l: L.List<()>, k: E.Kind)
    reads l, l.items, l.free
  {
    l.Valid() && Marked(l.items, ItemsMark(k)) && Marked(l.free, FreeMark(k))
  }

  lemma KeptNothing(l: L.List<()>, k: E.Kind)
    requires l.Valid() && l.items == [] && l.free == []
    ensures Kept(l, k)
  {
  }

  lemma MarksApart(a: seq<Node>, m: nat, b: seq<Node>, m': nat)
    requires Marked(a, m) && Marked(b, m') && m != m'
    ensures Unshared(a, b)
  {
    forall i, j | 0 <= i < |a| && 0 <= j < |b|
      ensures a[i] != b[j]
    {
      assert a[i] in a && b[j] in b;
    }
  }

  /** The nodes lie in front of these requests, in this order. */
  ghost predicate Ties(chain: seq<Node>, q: seq<Request>) {
    |chain| == |q| && forall i | 0 <= i < |q| :: chain[i].owner == q[i]
  }

  lemma TiesAppend(chain: seq<Node>, q: seq<Request>, node: Node, r: Request)
    requires Ties(chain, q) && node.owner == r
    ensures Ties(chain + [node], q + [r]) && Ties([node] + chain, [r] + q)
  {
  }

  lemma TiesFewer(chain: seq<Node>, q: seq<Request>)
    requires Ties(chain, q)
    ensures |chain| == |q|
    ensures q != [] ==> Ties(chain[1..], q[1..]) && Ties(DropLast(chain), DropLast(q))
    ensures q != [] ==> chain[0].owner == q[0] && Last(chain).owner == Last(q)
  {
  }

  lemma TiesNothing()
    ensures Ties([], [])
  {
  }

  /** The requests whose nodes are in the chains. */
  datatype View = View(sendFree: seq<Request>, recvFree: seq<Request>, probeFree: seq<Request>,
                       sendQ: seq<Request>, recvQ: seq<Request>, batch: seq<Request>)
  {
    ghost function In(k: E.Kind): seq<Request> {
      match k case SendKind => sendQ case RecvKind => recvQ case ProbeKind => []
    }

    ghost function Free(k: E.Kind): seq<Request> {
      match k case SendKind => sendFree case RecvKind => recvFree case ProbeKind => probeFree
    }

    ghost function WithIn(k: E.Kind, q: seq<Request>): View
      requires !k.ProbeKind?
    {
      if k.SendKind? then this.(sendQ := q) else this.(recvQ := q)
    }

    ghost function WithFree(k: E.Kind, q: seq<Request>): View {
      match k
      case SendKind => this.(sendFree := q)
      case RecvKind => this.(recvFree := q)
      case ProbeKind => this.(probeFree := q)
    }

    ghost predicate Lacks(r: Request) {
      r !in batch && forall k :: r !in In(k) && r !in Free(k)
    }
  }

  class RequestLists {
    const send: L.List<()>
    const recv: L.List<()>
    const probe: L.List<()>
    ghost const lists: set<L.List<()>> := {send, recv, probe}
    ghost var detached: seq<Node>   // still linked by next, no longer in the list
    ghost var nodes: set<Node>      // all nodes that ever were in a chain

    function Of(k: E.Kind): L.List<()> {
      match k case SendKind => send case RecvKind => recv case ProbeKind => probe
    }

    ghost predicate Valid()
      reads this, lists, nodes
    {
      && send != recv && send != probe && recv != probe
      && Inside(send.items) && Inside(recv.items) && Inside(probe.items)
      && Inside(send.free) && Inside(recv.free) && Inside(probe.free) && Inside(detached)
      && Kept(send, E.SendKind) && Kept(recv, E.RecvKind) && Kept(probe, E.ProbeKind)
      && Marked(detached, DETACHED) && L.Chained(detached) && L.NoDup(detached)
    }

    /** Only these and new nodes have joined. */
    twostate predicate Grown(new joined: set<L.Node?<()>>)
      reads this`nodes
    {
      forall n | n in nodes :: n in old(nodes) || n in joined || fresh(n)
    }

    ghost predicate Inside(q: seq<Node>)
      reads this`nodes
    {
      forall n | n in q :: n in nodes
    }

    /** The node is in no chain. */
    ghost predicate Loose(n: Node)
      reads this`detached, lists
    {
      n !in detached && forall k :: n !in Of(k).items && n !in Of(k).free
    }

    /** No node is in two of the chains. */
    lemma Separate(k: E.Kind)
      requires Valid()
      ensures Kept(Of(k), k) && Unshared(Of(k).items, Of(k).free)
      ensures Unshared(detached, Of(k).items) && Unshared(detached, Of(k).free)
      ensures forall k' | k' != k :: Kept(Of(k'), k') && Of(k') != Of(k)
      ensures forall k' | k' != k :: Unshared(Of(k').items, Of(k).items) && Unshared(Of(k').items, Of(k).free)
      ensures forall k' | k' != k :: Unshared(Of(k').free, Of(k).items) && Unshared(Of(k').free, Of(k).free)
    {
      hide Marked, Unshared, L.List.Valid;
      assert Kept(Of(k), k);
      MarksApart(Of(k).items, ItemsMark(k), Of(k).free, FreeMark(k));
      MarksApart(detached, DETACHED, Of(k).items, ItemsMark(k));
      MarksApart(detached, DETACHED, Of(k).free, FreeMark(k));
      forall k' | k' != k
        ensures Kept(Of(k'), k') && Of(k') != Of(k)
        ensures Unshared(Of(k').items, Of(k).items) && Unshared(Of(k').items, Of(k).free)
        ensures Unshared(Of(k').free, Of(k).items) && Unshared(Of(k').free, Of(k).free)
      {
        MarksApart(Of(k').items, ItemsMark(k'), Of(k).items, ItemsMark(k));
        MarksApart(Of(k').items, ItemsMark(k'), Of(k).free, FreeMark(k));
        MarksApart(Of(k').free, FreeMark(k'), Of(k).items, ItemsMark(k));
        MarksApart(Of(k').free, FreeMark(k'), Of(k).free, FreeMark(k));
      }
    }

    /** The chains hold the nodes of just these requests, in this order. */
    ghost predicate Holds(v: View)
      reads this, lists, nodes
    {
      && Valid() && Ties(detached, v.batch)
      && forall k :: Ties(Of(k).items, v.In(k)) && Ties(Of(k).free, v.Free(k))
    }

    lemma HoldsNothing()
      requires Valid() && detached == [] && forall k :: Of(k).items == [] && Of(k).free == []
      ensures Holds(View([], [], [], [], [], []))
    {
      hide Valid;
    }

    /** A request that is in no chain has its node in no chain. */
    lemma Unlisted(v: View, node: Node, r: Request)
      requires Holds(v) && v.Lacks(r) && node.owner == r
      ensures Loose(node)
    {
      ThreeKinds();
      forall k
        ensures node !in Of(k).items && node !in Of(k).free
      {
        assert r !in v.In(k) && r !in v.Free(k);
      }
    }

    lemma Contained()
      requires Valid()
      ensures forall k :: Of(k) in lists && Inside(Of(k).items) && Inside(Of(k).free)
      ensures Inside(detached)
    {
    }

    /** What a look at the ends of the lists tells about the requests. */
    lemma EndsTell(v: View)
      requires Holds(v)
      ensures forall k :: Of(k).freeNodes == null <==> v.Free(k) == []
      ensures forall k :: Of(k).tail == null <==> v.In(k) == []
      ensures forall k :: Of(k).len == |v.In(k)|
    {
      forall k
        ensures Of(k).freeNodes == null <==> v.Free(k) == []
        ensures Of(k).tail == null <==> v.In(k) == []
        ensures Of(k).len == |v.In(k)|
      {
        assert Kept(Of(k), k);
      }
    }

    lemma ThreeKinds()
      ensures Of(E.SendKind) == send && Of(E.RecvKind) == recv && Of(E.ProbeKind) == probe
    {
    }

    constructor ()
      ensures nodes == {} && fresh(lists) && Holds(View([], [], [], [], [], []))
    {
      hide Kept;
      send := new L.List<()>(0);
      recv := new L.List<()>(0);
      probe := new L.List<()>(0);
      detached, nodes := [], {};
      new;
      KeptNothing(send, E.SendKind);
      KeptNothing(recv, E.RecvKind);
      KeptNothing(probe, E.ProbeKind);
      HoldsNothing();
    }

    /** clh_list_push_node */
    method Push(k: E.Kind, node: Node)
      requires Valid() && Loose(node)
      modifies this`nodes, Of(k), node, Of(k).items`next
      ensures Valid() && Of(k).items == old(Of(k).items) + [node] && Of(k).free == old(Of(k).free)
      ensures detached == old(detached) && Grown({node})
      ensures forall k' | k' != k :: Of(k').items == old(Of(k').items) && Of(k').free == old(Of(k').free)
    {
      hide Kept, Marked, L.Chained, L.NoDup, ItemsMark;
      Separate(k);
      PushTo(Of(k), k, node);
      assert forall k' :: Kept(Of(k'), k');
      ThreeKinds();
      nodes := nodes + {node};
    }

    /** clh_list_pop_node */
    method Pop(k: E.Kind) returns (node: L.Node?<()>)
      requires Valid()
      modifies Of(k), Of(k).items`prev, Of(k).items`next
      ensures Valid() && Of(k).free == old(Of(k).free)
      ensures detached == old(detached)
      ensures forall k' | k' != k :: Of(k').items == old(Of(k').items) && Of(k').free == old(Of(k').free)
      ensures old(Of(k).items) == [] ==> node == null && Of(k).items == []
      ensures old(Of(k).items) != [] ==>
                node == Last(old(Of(k).items)) && Of(k).items == DropLast(old(Of(k).items))
    {
      hide Kept, Marked, L.Chained, L.NoDup, ItemsMark;
      Separate(k);
      node := PopFrom(Of(k), k);
      assert forall k' :: Kept(Of(k'), k');
      ThreeKinds();
    }

    /** clh_list_release_node */
    method Release(k: E.Kind, node: Node)
      requires Valid() && Loose(node)
      modifies this`nodes, Of(k), node
      ensures Valid() && Of(k).items == old(Of(k).items) && Of(k).free == [node] + old(Of(k).free)
      ensures detached == old(detached) && Grown({node})
      ensures forall k' | k' != k :: Of(k').items == old(Of(k').items) && Of(k').free == old(Of(k').free)
    {
      hide Kept, Marked, L.Chained, L.NoDup, FreeMark;
      Separate(k);
      ReleaseTo(Of(k), k, node);
      assert forall k' :: Kept(Of(k'), k');
      ThreeKinds();
      nodes := nodes + {node};
    }

    /** clh_list_new_node, with a node on the free chain. */
    method TakeFree(k: E.Kind) returns (node: Node)
      requires Valid() && Of(k).free != []
      modifies Of(k), Of(k).free`prev, Of(k).free`next
      ensures Valid() && node == old(Of(k).free)[0] && Of(k).free == old(Of(k).free)[1..]
      ensures Of(k).items == old(Of(k).items) && detached == old(detached) && Loose(node)
      ensures forall k' | k' != k :: Of(k').items == old(Of(k').items) && Of(k').free == old(Of(k').free)
    {
      hide Kept, Marked, L.Chained, L.NoDup, FreeMark;
      Separate(k);
      node := NewFrom(Of(k), k);
      assert forall k' :: Kept(Of(k'), k');
      ThreeKinds();
    }

    /** clh_list_get_all_nodes on the receive list. */
    method Detach() returns (begin: L.Node?<()>)
      requires Valid() && detached == []
      modifies this`detached, recv, recv.items`chain
      ensures Valid() && recv.items == [] && recv.free == old(recv.free)
      ensures detached == old(recv.items) && begin == L.At(detached, 0)
      ensures send.items == old(send.items) && send.free == old(send.free)
      ensures probe.items == old(probe.items) && probe.free == old(probe.free)
    {
      hide Kept, Marked, L.Chained, L.NoDup, ItemsMark;
      Separate(E.RecvKind);
      ThreeKinds();
      begin := DetachFrom(recv, E.RecvKind);
      detached := old(recv.items);
      assert forall k' :: Kept(Of(k'), k');
    }

    /** The walk goes on: the first detached node is on its own, and its `next`
        is the new first one. */
    ghost method StepOff(node: Node)
      requires Valid() && detached != [] && node == detached[0]
      modifies this`detached
      ensures Valid() && detached == old(detached)[1..] && node.next == L.At(detached, 0)
    {
      hide Kept;
      detached := detached[1..];
    }

    // ----- the same on requests -----

    /** clh_list_push_node of a request's node. */
    method PushRequest(k: E.Kind, node: Node, ghost r: Request, ghost v: View)
      requires Holds(v) && v.Lacks(r) && node.owner == r && !k.ProbeKind?
      modifies this`nodes, lists, nodes, node
      ensures Holds(v.WithIn(k, v.In(k) + [r])) && Grown({node})
    {
      hide Valid, Ties, Loose;
      Unlisted(v, node, r);
      Contained();
      TiesAppend(Of(k).items, v.In(k), node, r);
      Push(k, node);
    }

    /** clh_list_pop_node, and the request behind the node. */
    method PopRequest(k: E.Kind, ghost v: View) returns (r: Request)
      requires Holds(v) && !k.ProbeKind? && v.In(k) != []
      modifies lists, nodes
      ensures nodes == old(nodes)
      ensures r == Last(v.In(k)) && Holds(v.WithIn(k, DropLast(v.In(k))))
    {
      hide Valid, Ties;
      Contained();
      TiesFewer(Of(k).items, v.In(k));
      var node := Pop(k);
      r := node.owner as Request;
    }

    /** clh_list_release_node */
    method ReleaseRequest(k: E.Kind, node: Node, ghost r: Request, ghost v: View)
      requires Holds(v) && v.Lacks(r) && node.owner == r
      modifies this`nodes, lists, node
      ensures Holds(v.WithFree(k, [r] + v.Free(k))) && Grown({node})
    {
      hide Valid, Ties, Loose;
      Unlisted(v, node, r);
      Contained();
      TiesAppend(Of(k).free, v.Free(k), node, r);
      Release(k, node);
    }

    /** clh_list_new_node, with a node on the free chain, and the request behind
        the node. */
    method TakeRequest(k: E.Kind, ghost v: View) returns (node: Node, r: Request)
      requires Holds(v) && v.Free(k) != []
      modifies lists, nodes
      ensures node in nodes && node.owner == r
      ensures r == v.Free(k)[0] && Holds(v.WithFree(k, v.Free(k)[1..]))
    {
      hide Valid, Ties;
      Contained();
      TiesFewer(Of(k).free, v.Free(k));
      node := TakeFree(k);
      r := node.owner as Request;
    }

    /** clh_list_get_all_nodes on the receive list. */
    method DetachRequests(ghost v: View) returns (begin: L.Node?<()>)
      requires Holds(v) && v.batch == []
      modifies this`detached, lists, nodes
      ensures Holds(v.(batch := v.recvQ, recvQ := [])) && begin == L.At(detached, 0)
    {
      hide Valid, Ties;
      Contained();
      ThreeKinds();
      TiesNothing();
      TiesFewer(detached, v.batch);
      begin := Detach();
    }

    /** The walk of the worker moves on from the first detached node. */
    ghost method StepOffRequest(v: View)
      requires Holds(v) && v.batch != [] && detached != []
      modifies this`detached
      ensures Holds(v.(batch := v.batch[1..])) && old(detached[0]).next == L.At(detached, 0)
    {
      hide Valid, Ties;
      TiesFewer(detached, v.batch);
      StepOff(detached[0]);
    }
  }

  method PushTo(l: L.List<()>, k: E.Kind, node: Node)
    requires Kept(l, k) && node !in l.items && node !in l.free
    modifies l, node, l.items`next
    ensures Kept(l, k) && l.items == old(l.items) + [node] && l.free == old(l.free)
  {
    node.chain := ItemsMark(k);
    l.PushNode(node);
  }

  method PopFrom(l: L.List<()>, k: E.Kind) returns (node: L.Node?<()>)
    requires Kept(l, k)
    modifies l, l.items`prev, l.items`next
    ensures Kept(l, k) && l.free == old(l.free)
    ensures old(l.items) == [] ==> node == null && l.items == []
    ensures old(l.items) != [] ==>
              node == Last(old(l.items)) && l.items == DropLast(old(l.items)) && node !in l.items && node !in l.free
  {
    node := l.PopNode();
  }

  method ReleaseTo(l: L.List<()>, k: E.Kind, node: Node)
    requires Kept(l, k) && node !in l.items && node !in l.free
    modifies l, node
    ensures Kept(l, k) && l.items == old(l.items) && l.free == [node] + old(l.free)
  {
    node.chain := FreeMark(k);
    l.ReleaseNode(node);
  }

  method NewFrom(l: L.List<()>, k: E.Kind) returns (node: Node)
    requires Kept(l, k) && l.free != []
    modifies l, l.free`prev, l.free`next
    ensures Kept(l, k) && l.items == old(l.items) && node == old(l.free)[0] && l.free == old(l.free)[1..]
    ensures node !in l.items && node !in l.free
  {
    node := l.NewNode();
  }

  method DetachFrom(l: L.List<()>, k: E.Kind) returns (begin: L.Node?<()>)
    requires Kept(l, k)
    modifies l, l.items`chain
    ensures Kept(l, k) && l.items == [] && l.free == old(l.free)
    ensures begin == L.At(old(l.items), 0)
    ensures Marked(old(l.items), DETACHED) && L.Chained(old(l.items)) && L.NoDup(old(l.items))
  {
    ghost var q := l.items;
    var end;
    begin, end := l.GetAllNodes();
    forall n | n in q { n.chain := DETACHED; }
  }
}
