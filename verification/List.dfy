/** The intrusive doubly linked list with its free list (clh/list.c). */
module List {
  import opened Sequences

  class Node<T(0)> {
    var prev: Node?<T>
    var next: Node?<T>
    var data: T
    const owner: object?    // the record that the node lies in front of, if any
    ghost var chain: nat    // which chain of its user the node is in

    constructor (owner: object?)
      ensures prev == null && next == null && this.owner == owner
    {
      prev, next, this.owner := null, null, owner;
    }
  }

  ghost predicate NoDup<T(0)>(q: seq<Node<T>>) {
    forall i, j | 0 <= i < j < |q| :: q[i] != q[j]
  }

  ghost function At<T(0)>(q: seq<Node<T>>, i: int): Node?<T> {
    if 0 <= i < |q| then q[i] else null
  }

  /** The nodes of q are linked in both directions, with null at the ends. */
  ghost predicate Linked<T(0)>(q: seq<Node<T>>)
    reads q
  {
    && Chained(q)
    && forall i {:trigger q[i].prev} | 0 <= i < |q| :: q[i].prev == At(q, i - 1)
  }

  /** The nodes of q are linked by next only. */
  ghost predicate Chained<T(0)>(q: seq<Node<T>>)
    reads q
  {
    forall i {:trigger q[i].next} | 0 <= i < |q| :: q[i].next == At(q, i + 1)
  }

  /** A chain whose position k is bypassed in both directions. */
  ghost predicate Bypassed<T(0)>(q: seq<Node<T>>, k: nat)
    reads q
  {
    && (forall i {:trigger q[i].next} | 0 <= i < |q| && i != k ::
          q[i].next == At(q, if i == k - 1 then k + 1 else i + 1))
    && (forall i {:trigger q[i].prev} | 0 <= i < |q| && i != k ::
          q[i].prev == At(q, if i == k + 1 then k - 1 else i - 1))
  }

  lemma JoinedNext<T(0)>(q: seq<Node<T>>, k: nat, i: nat)
    requires k < |q| && Bypassed(q, k) && i < |q| - 1
    ensures Without(q, k)[i].next == At(Without(q, k), i + 1)
  {
    var w := Without(q, k);
    if i < k - 1 {
      assert w[i] == q[i] && w[i + 1] == q[i + 1];
    } else if i == k - 1 {
      assert w[i] == q[i];
      assert k + 1 < |q| ==> w[k] == q[k + 1];
    } else {
      assert w[i] == q[i + 1];
      assert i + 2 < |q| ==> w[i + 1] == q[i + 2];
    }
  }

  lemma JoinedPrev<T(0)>(q: seq<Node<T>>, k: nat, i: nat)
    requires k < |q| && Bypassed(q, k) && i < |q| - 1
    ensures Without(q, k)[i].prev == At(Without(q, k), i - 1)
  {
    var w := Without(q, k);
    if i < k {
      assert w[i] == q[i];
      assert i > 0 ==> w[i - 1] == q[i - 1];
    } else {
      assert w[i] == q[i + 1];
      assert i > 0 ==> w[i - 1] == if i - 1 < k then q[i - 1] else q[i];
    }
  }

  lemma JoinedLinked<T(0)>(q: seq<Node<T>>, k: nat)
    requires k < |q| && Bypassed(q, k)
    ensures Linked(Without(q, k))
  {
    hide At, Bypassed;
    var w := Without(q, k);
    forall i {:trigger w[i].next} | 0 <= i < |w|
      ensures w[i].next == At(w, i + 1)
    {
      JoinedNext(q, k, i);
    }
    forall i {:trigger w[i].prev} | 0 <= i < |w|
      ensures w[i].prev == At(w, i - 1)
    {
      JoinedPrev(q, k, i);
    }
  }

  lemma JoinedEnds<T(0)>(q: seq<Node<T>>, k: nat)
    requires k < |q|
    ensures At(Without(q, k), 0) == At(q, if k == 0 then 1 else 0)
    ensures At(Without(q, k), |q| - 2) == At(q, if k == |q| - 1 then |q| - 2 else |q| - 1)
  {
    var w := Without(q, k);
    assert |q| > 1 ==> w[0] == q[if k == 0 then 1 else 0];
    assert |q| > 1 ==> w[|q| - 2] == q[if k == |q| - 1 then |q| - 2 else |q| - 1];
  }

  lemma WithoutNoDup<T(0)>(q: seq<Node<T>>, k: nat)
    requires k < |q| && NoDup(q)
    ensures NoDup(Without(q, k)) && q[k] !in Without(q, k)
  {
    assert forall i | 0 <= i < |q| - 1 :: Without(q, k)[i] == q[if i < k then i else i + 1];
  }

  class List<T(0)> {
    var head: Node?<T>
    var tail: Node?<T>
    var freeNodes: Node?<T>
    var len: nat
    ghost var items: seq<Node<T>>   // from head to tail
    ghost var free: seq<Node<T>>    // from freeNodes on

    ghost predicate Valid()
      reads this, items, free
    {
      && len == |items|
      && head == At(items, 0) && tail == At(items, |items| - 1) && Linked(items)
      && freeNodes == At(free, 0) && Chained(free)
      && NoDup(items) && NoDup(free)
      && forall i, j | 0 <= i < |items| && 0 <= j < |free| :: items[i] != free[j]
    }

    /** clh_list_init_ */
    constructor (capacity: nat)
      ensures Valid() && items == [] && |free| == capacity && fresh(free)
    {
      head, tail, freeNodes, len := null, null, null, 0;
      items, free := [], [];
      new;
      var i := 0;
      while i < capacity
        invariant i <= capacity && |free| == i && items == [] && Valid() && fresh(free)
      {
        var node := new Node<T>(null);
        node.next := freeNodes;
        freeNodes := node;
        free := [node] + free;
        i := i + 1;
      }
    }

    /** clh_list_push_node: the node, which is in no chain, becomes the tail. */
    method PushNode(node: Node<T>)
      requires Valid() && node !in items && node !in free
      modifies this`head, this`tail, this`len, this`items, node`prev, node`next, items`next
      ensures Valid() && items == old(items) + [node] && free == old(free)
    {
      node.prev := tail;
      node.next := null;
      if node.prev != null {
        node.prev.next := node;
      } else {
        head := node;
      }
      tail := node;
      len := len + 1;
      items := items + [node];
    }

    /** clh_list_pop_node: takes the tail, so the list is a stack to its user. */
    method PopNode() returns (node: Node?<T>)
      requires Valid()
      modifies this`head, this`tail, this`len, this`items, items`prev, items`next
      ensures Valid() && free == old(free)
      ensures old(items) == [] ==> node == null && items == []
      ensures old(items) != [] ==> node == Last(old(items)) && items == DropLast(old(items))
    {
      if tail == null {
        return null;
      }
      node := tail;
      tail := node.prev;
      if node.prev != null {
        node.prev.next := null;
        node.prev := null;
      } else {
        head := node.next;
      }
      len := len - 1;
      items := DropLast(items);
    }

    /** The first part of clh_list_remove_node: the neighbours are joined. */
    method Unlink(node: Node<T>, ghost k: nat)
      requires Valid() && k < |items| && items[k] == node
      modifies this`head, this`tail, this`len, this`items, items`prev, items`next
      ensures Valid() && items == Without(old(items), k) && free == old(free)
      ensures node !in items && node !in free
    {
      ghost var q := items;
      if node.next != null {
        node.next.prev := node.prev;
      } else {
        tail := node.prev;
      }
      if node.prev != null {
        node.prev.next := node.next;
      } else {
        head := node.next;
      }
      len := len - 1;
      items := Without(items, k);
      assert Bypassed(q, k);
      JoinedLinked(q, k);
      JoinedEnds(q, k);
      WithoutNoDup(q, k);
      WithoutMembers(q, k);
    }

    /** clh_list_remove_node: unlinks a node of the list, wherever it is, and
        frees it. */
    method RemoveNode(node: Node<T>, ghost k: nat)
      requires Valid() && k < |items| && items[k] == node
      modifies this, items`prev, items`next
      ensures Valid() && items == Without(old(items), k) && free == [node] + old(free)
    {
      Unlink(node, k);
      ReleaseNode(node);
    }

    /** clh_list_get_all_nodes: the list is emptied and its nodes, still linked
        in push order, belong to the caller. */
    method GetAllNodes() returns (begin: Node?<T>, end: Node?<T>)
      requires Valid()
      modifies this`head, this`tail, this`len, this`items
      ensures Valid() && items == [] && free == old(free)
      ensures begin == At(old(items), 0) && end == At(old(items), |old(items)| - 1) && Linked(old(items))
    {
      begin, end := head, tail;
      head, tail, len := null, null, 0;
      items := [];
    }

    /** clh_list_new_node: a node that is in no chain. */
    method NewNode() returns (node: Node<T>)
      requires Valid()
      modifies this`freeNodes, this`free, free`prev, free`next
      ensures Valid() && items == old(items) && node !in items && node !in free
      ensures old(free) == [] ==> fresh(node) && free == []
      ensures old(free) != [] ==> node == old(free)[0] && free == old(free)[1..]
    {
      if freeNodes == null {
        node := new Node<T>(null);
      } else {
        node := freeNodes;
        freeNodes := node.next;
        node.next := null;
        node.prev := null;
        free := free[1..];
      }
    }

    /** clh_list_release_node */
    method ReleaseNode(node: Node<T>)
      requires Valid() && node !in items && node !in free
      modifies this`freeNodes, this`free, node`prev, node`next
      ensures Valid() && items == old(items) && free == [node] + old(free)
    {
      node.prev := null;
      node.next := freeNodes;
      freeNodes := node;
      free := [node] + free;
    }

    /** clh_list_push_data: the data goes to the end of the list, in a recycled
        node if there is one. */
    method PushData(data: T)
      requires Valid()
      modifies this, free`prev, free`next, free`data, items`next
      ensures Valid() && |items| == |old(items)| + 1 && items[..|old(items)|] == old(items)
      ensures Last(items).data == data && (Last(items) in old(free) || fresh(Last(items)))
      ensures free == if old(free) == [] then [] else old(free)[1..]
    {
      var node := NewNode();
      node.data := data;
      PushNode(node);
    }
  }

  // ----- the two chains -----

  /** Following next from p visits exactly q, in order. */
  ghost predicate Forward<T(0)>(p: Node?<T>, q: seq<Node<T>>)
    reads q
    decreases |q|
  {
    if q == [] then p == null else p == q[0] && Forward(q[0].next, q[1..])
  }

  /** Following prev from p visits exactly q, from its end. */
  ghost predicate Backward<T(0)>(p: Node?<T>, q: seq<Node<T>>)
    reads q
    decreases |q|
  {
    if q == [] then p == null else p == Last(q) && Backward(Last(q).prev, DropLast(q))
  }

  lemma {:induction false} ForwardFrom<T(0)>(q: seq<Node<T>>, i: nat)
    requires Chained(q) && i <= |q|
    ensures Forward(At(q, i), q[i..])
    decreases |q| - i
  {
    if i < |q| {
      ForwardFrom(q, i + 1);
      assert q[i..][1..] == q[i + 1..];
    }
  }

  lemma {:induction false} BackwardFrom<T(0)>(q: seq<Node<T>>, i: nat)
    requires Linked(q) && i <= |q|
    ensures Backward(At(q, i - 1), q[..i])
  {
    if i > 0 {
      BackwardFrom(q, i - 1);
      assert DropLast(q[..i]) == q[..i - 1];
    }
  }

  /** In every valid list the forward chain from the head and the backward chain
      from the tail are each other's reverse, the free chain is apart from both,
      and none of them has a cycle. */
  lemma ChainsAgree<T(0)>(l: List<T>)
    requires l.Valid()
    ensures Forward(l.head, l.items) && Backward(l.tail, l.items) && Forward(l.freeNodes, l.free)
    ensures l.len == |l.items|
    ensures forall n | n in l.items :: n !in l.free
  {
    ForwardFrom(l.items, 0);
    BackwardFrom(l.items, |l.items|);
    ForwardFrom(l.free, 0);
    assert l.items[0..] == l.items && l.items[..|l.items|] == l.items && l.free[0..] == l.free;
  }

  /** A chain determines what it visits: no two node sequences fit one start. */
  lemma {:induction false} ForwardUnique<T(0)>(p: Node?<T>, q: seq<Node<T>>, q': seq<Node<T>>)
    requires Forward(p, q) && Forward(p, q')
    ensures q == q'
    decreases |q|
  {
    if q != [] && q' != [] {
      ForwardUnique(q[0].next, q[1..], q'[1..]);
      assert q == [q[0]] + q[1..] && q' == [q'[0]] + q'[1..];
    }
  }
}
