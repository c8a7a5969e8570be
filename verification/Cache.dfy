/** The buffer cache (clh/cache.c): a search tree on the heap, walked through a
    pointer to the parent's slot, over nodes from the arena. */
module Cache {
  import opened Sequences
  import opened Arena
  import opened Tree

  /** CLH_BufferCacheNode **: the place that holds a pointer to a node. */
  datatype Slot = Root | LeftOf(n: CacheNode) | RightOf(n: CacheNode)

  function SlotOf(c: Context): Slot {
    match c
    case Top => Root
    case InLeft(_, n, _, _, _) => LeftOf(n)
    case InRight(_, _, n, _, _) => RightOf(n)
  }

  ghost function NodesOf(t: Tree): set<CacheNode> {
    match t
    case Leaf => {}
    case Fork(l, n, _, _, r) => NodesOf(l) + {n} + NodesOf(r)
  }

  ghost function NodesAbove(c: Context): set<CacheNode> {
    match c
    case Top => {}
    case InLeft(up, n, _, _, r) => NodesAbove(up) + {n} + NodesOf(r)
    case InRight(up, l, n, _, _) => NodesAbove(up) + {n} + NodesOf(l)
  }

  /** No node occurs twice. */
  ghost predicate Apart(t: Tree) {
    match t
    case Leaf => true
    case Fork(l, n, _, _, r) =>
      Apart(l) && Apart(r) && n !in NodesOf(l) && n !in NodesOf(r) && NodesOf(l) !! NodesOf(r)
  }

  ghost predicate ApartAbove(c: Context) {
    match c
    case Top => true
    case InLeft(up, n, _, _, r) =>
      ApartAbove(up) && Apart(r) && n !in NodesOf(r) && n !in NodesAbove(up) && NodesOf(r) !! NodesAbove(up)
    case InRight(up, l, n, _, _) =>
      ApartAbove(up) && Apart(l) && n !in NodesOf(l) && n !in NodesAbove(up) && NodesOf(l) !! NodesAbove(up)
  }

  /** The heap below p is the tree t. */
  ghost predicate Below(t: Tree, p: CacheNode?)
    reads NodesOf(t)
  {
    match t
    case Leaf => p == null
    case Fork(l, n, k, h, r) => p == n && n.mem == k && n.memh == h && Below(l, n.left) && Below(r, n.right)
  }

  function Deref(root: CacheNode?, s: Slot): CacheNode?
    reads match s case Root => {} case LeftOf(n) => {n} case RightOf(n) => {n}
  {
    match s
    case Root => root
    case LeftOf(n) => n.left
    case RightOf(n) => n.right
  }

  /** The heap around the hole of c is the rest of the tree, from `root` down to
      the node whose slot is the hole. */
  ghost predicate Around(c: Context, root: CacheNode?)
    reads NodesAbove(c)
  {
    match c
    case Top => true
    case InLeft(up, n, k, h, r) =>
      n.mem == k && n.memh == h && Below(r, n.right) && Around(up, root) && SlotHolds(up, root, n)
    case InRight(up, l, n, k, h) =>
      n.mem == k && n.memh == h && Below(l, n.left) && Around(up, root) && SlotHolds(up, root, n)
  }

  ghost predicate SlotHolds(c: Context, root: CacheNode?, p: CacheNode?)
    reads NodesAbove(c)
  {
    Deref(root, SlotOf(c)) == p
  }

  /** A heap tree splits into what is around a hole and what is below it. */
  lemma {:induction false} Splits(c: Context, t: Tree, root: CacheNode?)
    ensures Below(Plug(c, t), root) <==> Around(c, root) && Below(t, Deref(root, SlotOf(c)))
  {
    match c
    case Top =>
    case InLeft(up, n, k, h, r) => Splits(up, Fork(t, n, k, h, r), root);
    case InRight(up, l, n, k, h) => Splits(up, Fork(l, n, k, h, t), root);
  }

  lemma {:induction false} ApartSplits(c: Context, t: Tree)
    ensures NodesOf(Plug(c, t)) == NodesAbove(c) + NodesOf(t)
    ensures Apart(Plug(c, t)) <==> ApartAbove(c) && Apart(t) && NodesAbove(c) !! NodesOf(t)
  {
    match c
    case Top =>
    case InLeft(up, n, k, h, r) => ApartSplits(up, Fork(t, n, k, h, r));
    case InRight(up, l, n, k, h) => ApartSplits(up, Fork(l, n, k, h, t));
  }

  /** Reading the subtree off the heap. */
  lemma BelowParts(t: Tree, p: CacheNode?)
    requires Below(t, p)
    ensures t.Leaf? <==> p == null
    ensures t.Fork? ==> p == t.node && t.node.mem == t.key && t.node.memh == t.handle
                        && Below(t.left, t.node.left) && Below(t.right, t.node.right)
  {
  }

  datatype Outcome = NullBuffer | Registered(mem: nat, memh: nat) | Aborted

  class BufferCache {
    var data: CacheNode?
    const allocator: Allocator
    ghost var tree: Tree
    ghost var nodes: set<CacheNode> // the nodes of the tree
    ghost var mapped: seq<nat>      // handles the transport mapped, in order
    ghost var unmapped: seq<nat>    // handles unmapped by unregistering, in order

    /** The heap below `data` is the tree, without sharing and in order. */
    ghost predicate Shaped()
      reads this, nodes
    {
      nodes == NodesOf(tree) && Below(tree, data) && Apart(tree) && Sorted(InOrder(tree))
    }

    /** Every tree node is an allocated slot, and the slots hold what was mapped. */
    ghost predicate Accounted()
      reads this, allocator, allocator.blocks, allocator.used
    {
      && allocator.Valid()
      && (forall n | n in nodes :: n in allocator.used)
      && Handles(allocator.used) == mapped
    }

    ghost predicate Valid()
      reads this, nodes, allocator, allocator.blocks, allocator.used
    {
      Shaped() && Accounted()
    }

    /** The map from address to handle that the cache stands for. */
    ghost function Map(): map<nat, nat>
      reads this
    {
      Content(InOrder(tree))
    }

    /** What may be written later was writable before, or is new. */
    twostate predicate Confined()
      reads this, allocator
    {
      && (allocator.lastBlock == old(allocator.lastBlock) || fresh(allocator.lastBlock))
      && (forall n | n in allocator.slots :: n in old(allocator.slots) || fresh(n))
      && (forall n | n in nodes :: n in old(nodes) || n in old(allocator.slots) || fresh(n))
    }

    ghost function Cells(): set<CacheNode>
      reads this, allocator
    {
      nodes + set n | n in allocator.slots
    }

    ghost function Footprint(): set<object>
      reads this, allocator
    {
      {this, allocator, allocator.lastBlock} + Cells()
    }

    /** clh_buffer_cache_create */
    constructor (blockSize: nat)
      requires blockSize > 0
      ensures Valid() && Map() == map[] && mapped == [] && unmapped == []
      ensures fresh(Footprint())
    {
      data, tree, nodes, mapped, unmapped := null, Leaf, {}, [], [];
      allocator := new Allocator(blockSize);
    }

    /** buffer_cache_search_ */
    method Search(mem: nat) returns (cur: Slot, ghost c: Context, ghost t: Tree)
      requires Shaped()
      ensures (c, t) == SearchFrom(Top, tree, mem) && Plug(c, t) == tree && cur == SlotOf(c)
      ensures cur == SlotOf(SearchFrom(Top, tree, mem).0)
      ensures Around(c, data) && Below(t, Deref(data, cur))
    {
      cur, c, t := Root, Top, tree;
      while Deref(data, cur) != null
        invariant SearchFrom(c, t, mem) == SearchFrom(Top, tree, mem) && Plug(c, t) == tree
        invariant cur == SlotOf(c) && Around(c, data) && Below(t, Deref(data, cur))
        decreases t
      {
        var p: CacheNode := Deref(data, cur);
        BelowParts(t, p);
        if mem < p.mem {
          cur := LeftOf(p);
          c, t := InLeft(c, t.node, t.key, t.handle, t.right), t.left;
        } else if mem > p.mem {
          cur := RightOf(p);
          c, t := InRight(c, t.left, t.node, t.key, t.handle), t.right;
        } else {
          return;
        }
      }
      BelowParts(t, Deref(data, cur));
    }

    /** `*cur = p`: the hole now holds p; what is below p, and another tree that
        is not above the hole, are as they were. */
    method Fill(cur: Slot, p: CacheNode?, ghost c: Context, ghost t: Tree, ghost other: Tree, ghost q: CacheNode?)
      requires cur == SlotOf(c) && Around(c, data) && ApartAbove(c)
      requires Below(t, p) && NodesOf(t) !! NodesAbove(c)
      requires Below(other, q) && NodesOf(other) !! NodesAbove(c)
      modifies this`data, NodesAbove(c)`left, NodesAbove(c)`right
      ensures Around(c, data) && Deref(data, cur) == p && Below(t, p) && Below(other, q)
    {
      match cur
      case Root => data := p;
      case LeftOf(n) => n.left := p;
      case RightOf(n) => n.right := p;
    }

    /** The loop of remove_node_: down the left slots to the first empty one,
        and `left` goes there. */
    method HangLeft(cur: Slot, left: CacheNode?, ghost c: Context, ghost r: Tree, ghost l: Tree)
      requires cur == SlotOf(c) && Around(c, data) && Below(r, Deref(data, cur)) && Below(l, left)
      requires ApartAbove(c) && Apart(r) && Apart(l)
      requires NodesAbove(c) !! NodesOf(r) && NodesOf(l) !! (NodesAbove(c) + NodesOf(r))
      modifies this`data, (NodesAbove(c) + NodesOf(r))`left, (NodesAbove(c) + NodesOf(r))`right
      ensures Below(Plug(c, Hang(r, l)), data) && Apart(Plug(c, Hang(r, l)))
    {
      hide Apart, ApartAbove, Below, Around;
      var node := cur;
      ghost var d, sub := c, r;
      while Deref(data, node) != null
        invariant node == SlotOf(d) && Around(d, data) && Below(sub, Deref(data, node)) && Below(l, left)
        invariant Plug(d, Hang(sub, l)) == Plug(c, Hang(r, l))
        invariant NodesAbove(d) + NodesOf(sub) == NodesAbove(c) + NodesOf(r)
        invariant ApartAbove(d) && Apart(sub) && NodesAbove(d) !! NodesOf(sub)
        decreases sub
      {
        var p: CacheNode := Deref(data, node);
        BelowParts(sub, p);
        GoLeft(d, sub, data);
        node := LeftOf(p);
        d, sub := InLeft(d, sub.node, sub.key, sub.handle, sub.right), sub.left;
      }
      BelowParts(sub, Deref(data, node));
      Fill(node, left, d, l, l, left);
      Splits(d, l, data);
      ApartSplits(d, l);
    }

    /** remove_node_ on the slot the search ended at: the right subtree moves up,
        and the left one goes into the leftmost hole of the right one. */
    method RemoveNode(cur: Slot, ghost c: Context, ghost t: Tree)
      requires t.Fork? && cur == SlotOf(c) && Around(c, data) && Below(t, Deref(data, cur))
      requires ApartAbove(c) && Apart(t) && NodesAbove(c) !! NodesOf(t)
      modifies this`data, (NodesAbove(c) + NodesOf(t))`left, (NodesAbove(c) + NodesOf(t))`right
      ensures Below(Plug(c, Hang(t.right, t.left)), data) && Apart(Plug(c, Hang(t.right, t.left)))
    {
      hide Apart, ApartAbove, Below, Around;
      var p := Deref(data, cur);
      BelowParts(t, p);
      ApartParts(t);
      var left, right := p.left, p.right;
      Fill(cur, right, c, t.right, t.left, left);
      HangLeft(cur, left, c, t.right, t.left);
    }

    /** A fresh node becomes a leaf in the hole the search ended at. */
    method Attach(cur: Slot, node: CacheNode, mem: nat, memh: nat, ghost c: Context)
      requires Shaped() && SearchFrom(Top, tree, mem) == (c, Leaf) && Plug(c, Leaf) == tree
      requires cur == SlotOf(c) && Around(c, data) && node !in nodes
      modifies this`data, this`tree, this`nodes, nodes`left, nodes`right, node
      ensures Shaped() && Map() == old(Map())[mem := memh]
      ensures nodes == old(nodes) + {node} && node.memh == memh
    {
      hide Sorted, Content, SearchFrom, InOrder;
      ghost var leaf := Fork(Leaf, node, mem, memh, Leaf);
      ApartSplits(c, Leaf);
      SetNode(node, mem, memh);
      Fill(cur, node, c, leaf, Leaf, null);
      Inserted(tree, c, node, mem, memh);
      tree, nodes := Plug(c, leaf), nodes + {node};
      Splits(c, leaf, data);
      ApartSplits(c, leaf);
    }

    method SetNode(node: CacheNode, mem: nat, memh: nat)
      modifies node
      ensures Below(Fork(Leaf, node, mem, memh, Leaf), node) && node.memh == memh
    {
      node.left, node.right, node.mem, node.memh := null, null, mem, memh;
    }

    // History.

    ghost method RecordMapped(memh: nat)
      requires Shaped()
      modifies this`mapped
      ensures Shaped() && Map() == old(Map()) && mapped == old(mapped) + [memh]
    {
      mapped := mapped + [memh];
    }

    ghost method RecordUnmapped(memh: nat)
      requires Valid()
      modifies this`unmapped
      ensures Valid() && Map() == old(Map()) && unmapped == old(unmapped) + [memh]
    {
      unmapped := unmapped + [memh];
    }

    method NewSlot() returns (node: CacheNode)
      requires Accounted()
      modifies allocator, allocator.lastBlock
      ensures allocator.Valid() && node !in nodes && node !in old(allocator.used)
      ensures allocator.used == old(allocator.used) + [node] && Handles(old(allocator.used)) == mapped
      ensures node in allocator.slots
      ensures allocator.lastBlock == old(allocator.lastBlock) || fresh(allocator.lastBlock)
      ensures forall n | n in allocator.slots :: n in old(allocator.slots) || fresh(n)
    {
      hide Slots, Handed, Allocator.Valid, NoDup;
      ghost var before := allocator.used;
      label creating:
      node := allocator.CreateNode();
      HandlesKept@creating(before);
    }

    /** The new slot gets its handle, the others keep theirs. */
    method AttachAccounted(cur: Slot, node: CacheNode, mem: nat, memh: nat, ghost c: Context,
                           ghost before: seq<CacheNode>)
      requires Shaped() && SearchFrom(Top, tree, mem) == (c, Leaf) && Plug(c, Leaf) == tree
      requires cur == SlotOf(c) && Around(c, data) && node !in nodes && node !in before
      requires allocator.Valid() && allocator.used == before + [node] && Handles(before) == mapped
      requires forall n | n in nodes :: n in before
      modifies this`data, this`tree, this`nodes, this`mapped, nodes`left, nodes`right, node
      ensures Shaped() && Accounted() && Map() == old(Map())[mem := memh] && mapped == old(mapped) + [memh]
      ensures nodes == old(nodes) + {node}
    {
      hide Shaped, Map, Around, SearchFrom, Plug, Slots, Handed, Allocator.Valid, NoDup;
      label attaching:
      Attach(cur, node, mem, memh, c);
      HandlesKept@attaching(before);
      RecordMapped(memh);
    }

    /** The insertion branch of clh_buffer_cache_register_or_get. */
    method Insert(cur: Slot, mem: nat, memh: nat, ghost c: Context)
      requires Valid() && SearchFrom(Top, tree, mem) == (c, Leaf) && Plug(c, Leaf) == tree
      requires cur == SlotOf(c) && Around(c, data)
      modifies this, allocator, allocator.lastBlock, nodes`left, nodes`right, allocator.slots
      ensures Valid() && Map() == old(Map())[mem := memh]
      ensures mapped == old(mapped) + [memh] && unmapped == old(unmapped) && Confined()
    {
      hide Map, Around, SearchFrom, Plug, Below, Apart, Sorted, InOrder;
      ghost var before := allocator.used;
      ApartSplits(c, Leaf);
      assert NodesAbove(c) <= nodes;
      var node := NewSlot();
      AttachAccounted(cur, node, mem, memh, c, before);
    }

    /** clh_buffer_cache_register_or_get; `memh` is what ucp_mem_map would give,
        or None if it fails, in which case the closing assertion aborts. */
    method RegisterOrGet(mem: nat, memh: Option<nat>) returns (r: Outcome)
      requires Valid()
      modifies this, allocator, allocator.lastBlock, nodes`left, nodes`right, allocator.slots
      ensures Valid() && unmapped == old(unmapped) && Confined()
      ensures mem == 0 ==> r == NullBuffer
      ensures mem != 0 && mem in old(Map()) ==> r == Registered(mem, old(Map())[mem])
      ensures mem != 0 && mem !in old(Map()) && memh.None? ==> r == Aborted
      ensures mem != 0 && mem !in old(Map()) && memh.Some? ==>
                && r == Registered(mem, memh.value)
                && Map() == old(Map())[mem := memh.value] && mapped == old(mapped) + [memh.value]
      ensures mem == 0 || mem in old(Map()) || memh.None? ==> Map() == old(Map()) && mapped == old(mapped)
      // whatever it returns is for the address asked for (cache.c:162)
      ensures if r.Registered? then r.mem == mem && mem in Map() else r == Aborted || mem == 0
      ensures forall k | k in old(Map()) :: k in Map()
    {
      if mem == 0 {
        return NullBuffer;
      }
      hide Around, Sorted, Content, SearchFrom, InOrder, Apart, Below;
      var cur, c, t := Search(mem);
      Answered(mem);
      var p := Deref(data, cur);
      BelowParts(t, p);
      if p != null {
        r := Registered(p.mem, p.memh);
      } else if memh.None? {
        r := Aborted;
      } else {
        Insert(cur, mem, memh.value, c);
        r := Registered(mem, memh.value);
      }
    }

    /** clh_buffer_cache_unregister; `unmapOk` is the answer of ucp_mem_unmap. */
    method Unregister(mem: nat, unmapOk: bool) returns (ok: bool)
      requires Valid()
      modifies this, nodes`left, nodes`right
      ensures Valid() && mapped == old(mapped) && Confined()
      ensures ok <==> mem in old(Map()) && unmapOk
      ensures ok ==> Map() == old(Map()) - {mem} && unmapped == old(unmapped) + [old(Map())[mem]]
      ensures !ok ==> Map() == old(Map()) && unmapped == old(unmapped)
    {
      hide Around, Sorted, Content, SearchFrom, InOrder, Apart, Below, ApartAbove, Hang, Accounted, Plug;
      var cur, c, t := Search(mem);
      Answered(mem);
      var p := Deref(data, cur);
      BelowParts(t, p);
      if p == null || !unmapOk {
        return false;
      }
      DetachAccounted(cur, c, t);
      RecordUnmapped(p.memh);
      ok := true;
    }

    /** Detaching writes no handle: the slot stays in the arena with its own. */
    method DetachAccounted(cur: Slot, ghost c: Context, ghost t: Tree)
      requires Shaped() && Accounted() && t.Fork? && Plug(c, t) == tree && cur == SlotOf(c)
      requires Around(c, data) && Below(t, Deref(data, cur))
      modifies this`data, this`tree, this`nodes, nodes`left, nodes`right
      ensures Shaped() && Accounted() && Map() == old(Map()) - {t.key} && nodes == old(nodes) - {t.node}
    {
      hide Shaped, Map, Around, Below, Plug, Slots, Handed, Allocator.Valid, NoDup, Handles;
      ghost var used := allocator.used;
      label removing:
      Detach(cur, c, t);
      HandlesKept@removing(used);
    }

    /** remove_node_ on the node the search ended at. */
    method Detach(cur: Slot, ghost c: Context, ghost t: Tree)
      requires Shaped() && t.Fork? && Plug(c, t) == tree && cur == SlotOf(c)
      requires Around(c, data) && Below(t, Deref(data, cur))
      modifies this`data, this`tree, this`nodes, nodes`left, nodes`right
      ensures Shaped() && Map() == old(Map()) - {t.key} && nodes == old(nodes) - {t.node}
    {
      hide Around, Below, Sorted, Content, InOrder, Hang;
      ApartSplits(c, t);
      ApartParts(t);
      Removed(c, t);
      RemoveNode(cur, c, t);
      tree, nodes := Plug(c, Hang(t.right, t.left)), nodes - {t.node};
      HangNodes(t.right, t.left);
      ApartSplits(c, Hang(t.right, t.left));
    }

    /** What the search tells: the key's own node, or that there is none. */
    lemma Answered(mem: nat)
      requires Valid()
      ensures var (c, t) := SearchFrom(Top, tree, mem);
              && (t.Fork? ==> t.key == mem && mem in Map() && Map()[mem] == t.handle)
              && (t.Leaf? ==> mem !in Map())
    {
      TopIsEmpty(tree, mem);
      SearchIsRight(Top, tree, mem);
      SearchAnswers(tree, mem);
    }

    /** clh_buffer_cache_destroy: every handle ever mapped is unmapped once more. */
    method Destroy() returns (out: seq<nat>)
      requires Valid()
      ensures out == mapped
    {
      out := allocator.Destroy();
    }
  }

  lemma ApartParts(t: Tree)
    requires t.Fork? && Apart(t)
    ensures Apart(t.left) && Apart(t.right) && NodesOf(t.left) !! NodesOf(t.right)
    ensures t.node !in NodesOf(t.left) && t.node !in NodesOf(t.right)
    ensures NodesOf(t) == NodesOf(t.left) + {t.node} + NodesOf(t.right)
  {
  }

  /** Stepping into the left slot keeps the picture around and below it. */
  lemma GoLeft(d: Context, t: Tree, root: CacheNode?)
    requires Around(d, root) && Below(t, Deref(root, SlotOf(d))) && t.Fork?
    requires ApartAbove(d) && Apart(t) && NodesAbove(d) !! NodesOf(t)
    ensures var d' := InLeft(d, t.node, t.key, t.handle, t.right);
            && Deref(root, SlotOf(d)) == t.node
            && Around(d', root) && Below(t.left, Deref(root, SlotOf(d')))
            && ApartAbove(d') && Apart(t.left) && NodesAbove(d') !! NodesOf(t.left)
            && NodesAbove(d') + NodesOf(t.left) == NodesAbove(d) + NodesOf(t)
  {
  }

  lemma {:induction false} HangNodes(r: Tree, l: Tree)
    ensures NodesOf(Hang(r, l)) == NodesOf(r) + NodesOf(l)
  {
    if r.Fork? {
      HangNodes(r.left, l);
    }
  }
}
