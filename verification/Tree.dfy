/** The cache's search tree as a value: positions in it are contexts with a
    hole, as the pointer to a parent's slot is in clh/cache.c. */
module Tree {
  import opened Sequences
  import opened Arena

  datatype Tree = Leaf | Fork(left: Tree, node: CacheNode, key: nat, handle: nat, right: Tree)

  /** A tree with one subtree missing, from the hole upwards. */
  datatype Context =
    | Top
    | InLeft(up: Context, node: CacheNode, key: nat, handle: nat, right: Tree)
    | InRight(up: Context, left: Tree, node: CacheNode, key: nat, handle: nat)

  datatype Entry = Entry(key: nat, handle: nat)

  function Plug(c: Context, t: Tree): Tree {
    match c
    case Top => t
    case InLeft(up, n, k, h, r) => Plug(up, Fork(t, n, k, h, r))
    case InRight(up, l, n, k, h) => Plug(up, Fork(l, n, k, h, t))
  }

  function InOrder(t: Tree): seq<Entry> {
    match t
    case Leaf => []
    case Fork(l, _, k, h, r) => InOrder(l) + [Entry(k, h)] + InOrder(r)
  }

  /** In-order entries left and right of the hole. */
  function Before(c: Context): seq<Entry> {
    match c
    case Top => []
    case InLeft(up, _, _, _, _) => Before(up)
    case InRight(up, l, _, k, h) => Before(up) + InOrder(l) + [Entry(k, h)]
  }

  function After(c: Context): seq<Entry> {
    match c
    case Top => []
    case InLeft(up, _, k, h, r) => [Entry(k, h)] + InOrder(r) + After(up)
    case InRight(up, _, _, _, _) => After(up)
  }

  ghost predicate Sorted(q: seq<Entry>) {
    forall i, j | 0 <= i < j < |q| :: q[i].key < q[j].key
  }

  ghost function Keys(q: seq<Entry>): set<nat> {
    set e | e in q :: e.key
  }

  /** The map from address to handle that the entries stand for. */
  ghost function Content(q: seq<Entry>): map<nat, nat> {
    if q == [] then map[] else Content(DropLast(q))[Last(q).key := Last(q).handle]
  }

  lemma {:induction false} PlugInOrder(c: Context, t: Tree)
    ensures InOrder(Plug(c, t)) == Before(c) + InOrder(t) + After(c)
  {
    match c
    case Top =>
    case InLeft(up, n, k, h, r) => PlugInOrder(up, Fork(t, n, k, h, r));
    case InRight(up, l, n, k, h) => PlugInOrder(up, Fork(l, n, k, h, t));
  }

  // ----- what the entries stand for -----

  lemma {:induction false} ContentKeys(q: seq<Entry>)
    ensures Content(q).Keys == Keys(q)
  {
    if q != [] {
      ContentKeys(DropLast(q));
      assert q == DropLast(q) + [Last(q)];
    }
  }

  lemma {:induction false} ContentAt(q: seq<Entry>, i: nat)
    requires Sorted(q) && i < |q|
    ensures q[i].key in Content(q) && Content(q)[q[i].key] == q[i].handle
  {
    if i < |q| - 1 {
      ContentAt(DropLast(q), i);
    }
  }

  /** Sorted entries are determined by the map they stand for. */
  lemma ContentIs(q: seq<Entry>, m: map<nat, nat>)
    requires Sorted(q)
    requires forall e | e in q :: e.key in m && m[e.key] == e.handle
    requires forall k | k in m :: k in Keys(q)
    ensures Content(q) == m
  {
    ContentKeys(q);
    forall k | k in Content(q)
      ensures k in m && Content(q)[k] == m[k]
    {
      var e :| e in q && e.key == k;
      var i :| 0 <= i < |q| && q[i] == e;
      ContentAt(q, i);
    }
  }

  lemma ContentAdded(a: seq<Entry>, e: Entry, b: seq<Entry>)
    requires Sorted(a + [e] + b) && Sorted(a + b)
    ensures Content(a + [e] + b) == Content(a + b)[e.key := e.handle]
    ensures e.key !in Content(a + b)
  {
    var q, q' := a + b, a + [e] + b;
    ContentKeys(q);
    NotAmong(a, e, b);
    forall f | f in q'
      ensures f.key in Content(q)[e.key := e.handle] && Content(q)[e.key := e.handle][f.key] == f.handle
    {
      if f != e {
        assert f in q;
        var i :| 0 <= i < |q| && q[i] == f;
        ContentAt(q, i);
      }
    }
    assert forall f | f in q :: f in q';
    assert e in q';
    ContentIs(q', Content(q)[e.key := e.handle]);
  }

  lemma NotAmong(a: seq<Entry>, e: Entry, b: seq<Entry>)
    requires Sorted(a + [e] + b)
    ensures forall f | f in a + b :: f.key != e.key
  {
    var q := a + [e] + b;
    assert q[|a|] == e;
    assert forall i | 0 <= i < |a| :: q[i] == a[i];
    assert forall i | 0 <= i < |b| :: q[|a| + 1 + i] == b[i];
  }

  lemma SortedConcat(a: seq<Entry>, b: seq<Entry>)
    ensures Sorted(a + b) <==> Sorted(a) && Sorted(b) && forall e, f | e in a && f in b :: e.key < f.key
  {
    var q := a + b;
    assert forall i | 0 <= i < |a| :: q[i] == a[i];
    assert forall i | 0 <= i < |b| :: q[|a| + i] == b[i];
  }

  lemma SortedParts(a: seq<Entry>, m: seq<Entry>, b: seq<Entry>)
    requires Sorted(a + m + b)
    ensures Sorted(a + b) && Sorted(m)
    ensures forall e, f | e in a && f in b :: e.key < f.key
  {
    hide Sorted;
    SortedConcat(a + m, b);
    SortedConcat(a, m);
    SortedConcat(a, b);
    assert forall e | e in a :: e in a + m;
  }

  // ----- searching -----

  /** The key lies between what is left and what is right of the hole. */
  ghost predicate Fits(c: Context, key: nat) {
    (forall e | e in Before(c) :: e.key < key) && (forall e | e in After(c) :: key < e.key)
  }

  /** Where the search ends: the context of the slot, and the subtree in it. */
  function SearchFrom(c: Context, t: Tree, key: nat): (Context, Tree)
    decreases t
  {
    match t
    case Leaf => (c, t)
    case Fork(l, n, k, h, r) =>
      if key < k then SearchFrom(InLeft(c, n, k, h, r), l, key)
      else if key > k then SearchFrom(InRight(c, l, n, k, h), r, key)
      else (c, t)
  }

  /** A slot is right for the key if the key is there, or if the slot is empty
      and the key fits in it. */
  ghost predicate RightSlot(c: Context, t: Tree, key: nat) {
    if t.Fork? then t.key == key else Fits(c, key)
  }

  /** The search ends at a right slot of the same tree. */
  lemma {:induction false} SearchIsRight(c: Context, t: Tree, key: nat)
    requires Sorted(InOrder(Plug(c, t))) && Fits(c, key)
    ensures var (c', t') := SearchFrom(c, t, key); Plug(c', t') == Plug(c, t) && RightSlot(c', t', key)
    decreases t
  {
    match t
    case Leaf =>
    case Fork(l, n, k, h, r) =>
      PlugInOrder(c, t);
      var q := InOrder(l) + [Entry(k, h)] + InOrder(r);
      SortedParts(Before(c), q, After(c));
      SortedAround(InOrder(l), Entry(k, h), InOrder(r));
      if key < k {
        KeyLeft(c, t, key);
        SearchIsRight(InLeft(c, n, k, h, r), l, key);
      } else if key > k {
        KeyRight(c, t, key);
        SearchIsRight(InRight(c, l, n, k, h), r, key);
      }
  }

  lemma SortedAround(a: seq<Entry>, e: Entry, b: seq<Entry>)
    requires Sorted(a + [e] + b)
    ensures (forall f | f in a :: f.key < e.key) && (forall f | f in b :: e.key < f.key)
    ensures Sorted(a) && Sorted(b)
  {
    var q := a + [e] + b;
    assert q[|a|] == e;
    assert forall i | 0 <= i < |a| :: q[i] == a[i];
    assert forall i | 0 <= i < |b| :: q[|a| + 1 + i] == b[i];
  }

  lemma KeyLeft(c: Context, t: Tree, key: nat)
    requires t.Fork? && Sorted(InOrder(t)) && Fits(c, key) && key < t.key
    ensures Fits(InLeft(c, t.node, t.key, t.handle, t.right), key)
  {
    SortedAround(InOrder(t.left), Entry(t.key, t.handle), InOrder(t.right));
  }

  lemma KeyRight(c: Context, t: Tree, key: nat)
    requires t.Fork? && Sorted(InOrder(t)) && Fits(c, key) && key > t.key
    ensures Fits(InRight(c, t.left, t.node, t.key, t.handle), key)
  {
    SortedAround(InOrder(t.left), Entry(t.key, t.handle), InOrder(t.right));
  }

  /** The search from the root passes through any context the key fits in. */
  lemma {:induction false} SearchPasses(c: Context, t: Tree, key: nat)
    requires Fits(c, key)
    ensures SearchFrom(Top, Plug(c, t), key) == SearchFrom(c, t, key)
    decreases c
  {
    match c
    case Top =>
    case InLeft(up, n, k, h, r) =>
      assert Entry(k, h) in After(c);
      assert forall e | e in After(up) :: e in After(c);
      SearchPasses(up, Fork(t, n, k, h, r), key);
    case InRight(up, l, n, k, h) =>
      assert Entry(k, h) in Before(c);
      assert forall e | e in Before(up) :: e in Before(c);
      SearchPasses(up, Fork(l, n, k, h, t), key);
  }

  lemma RightSlotFits(c: Context, t: Tree, key: nat)
    requires Sorted(InOrder(Plug(c, t))) && RightSlot(c, t, key)
    ensures Fits(c, key)
  {
    hide Plug, Before, After, SearchFrom;
    if t.Fork? {
      EntriesAround(c, t);
      SortedAround(Before(c) + InOrder(t.left), Entry(t.key, t.handle), InOrder(t.right) + After(c));
    }
  }

  /** There is one right slot, so the search cannot end at another. */
  lemma RightSlotUnique(c: Context, t: Tree, key: nat)
    requires Sorted(InOrder(Plug(c, t))) && RightSlot(c, t, key)
    ensures SearchFrom(Top, Plug(c, t), key) == (c, t)
  {
    hide Plug, Sorted, InOrder, Fits;
    RightSlotFits(c, t, key);
    SearchPasses(c, t, key);
  }

  /** A hit holds the key's handle; a miss means the key is not in the tree. */
  lemma SearchAnswers(t: Tree, key: nat)
    requires Sorted(InOrder(t))
    ensures var (c, s) := SearchFrom(Top, t, key);
            && (s.Fork? <==> key in Content(InOrder(t)))
            && (s.Fork? ==> Content(InOrder(t))[key] == s.handle)
  {
    hide Before, After, Plug, Content, SearchFrom, Sorted;
    assert Fits(Top, key) && Plug(Top, t) == t by { TopIsEmpty(t, key); }
    SearchIsRight(Top, t, key);
    var (c, s) := SearchFrom(Top, t, key);
    PlugInOrder(c, s);
    if s.Fork? {
      EntriesAround(c, s);
      KeyInMiddle(Before(c) + InOrder(s.left), Entry(s.key, s.handle), InOrder(s.right) + After(c));
    } else {
      assert InOrder(t) == Before(c) + After(c);
      ContentKeys(InOrder(t));
      assert forall e | e in InOrder(t) :: e.key != key;
    }
  }

  lemma TopIsEmpty(t: Tree, key: nat)
    ensures Fits(Top, key) && Plug(Top, t) == t
  {
  }

  /** The tree's entries around the root of the subtree in the hole. */
  lemma EntriesAround(c: Context, t: Tree)
    requires t.Fork?
    ensures InOrder(Plug(c, t))
            == (Before(c) + InOrder(t.left)) + [Entry(t.key, t.handle)] + (InOrder(t.right) + After(c))
  {
    hide Before, After, Plug;
    PlugInOrder(c, t);
    Regroup(Before(c), InOrder(t.left), [Entry(t.key, t.handle)], InOrder(t.right), After(c));
  }

  lemma Regroup(a: seq<Entry>, b: seq<Entry>, c: seq<Entry>, d: seq<Entry>, e: seq<Entry>)
    ensures a + (b + c + d) + e == (a + b) + c + (d + e)
  {
  }

  lemma KeyInMiddle(a: seq<Entry>, e: Entry, b: seq<Entry>)
    requires Sorted(a + [e] + b)
    ensures e.key in Content(a + [e] + b) && Content(a + [e] + b)[e.key] == e.handle
  {
    WithoutMiddle(a, e, b);
    ContentAt(a + [e] + b, |a|);
  }

  // ----- inserting -----

  lemma InsertedSorted(a: seq<Entry>, e: Entry, b: seq<Entry>)
    requires Sorted(a + b) && (forall f | f in a :: f.key < e.key) && (forall f | f in b :: e.key < f.key)
    ensures Sorted(a + [e] + b)
  {
    var q := a + [e] + b;
    forall i, j | 0 <= i < j < |q|
      ensures q[i].key < q[j].key
    {
      if i < |a| {
        assert q[i] == a[i] == (a + b)[i] && a[i] in a;
      } else if i > |a| {
        assert q[i] == (a + b)[i - 1];
      }
      if j < |a| {
        assert q[j] == a[j] == (a + b)[j];
      } else if j > |a| {
        assert q[j] == b[j - |a| - 1] == (a + b)[j - 1] && b[j - |a| - 1] in b;
      }
    }
  }

  /** Filling the empty slot the search ended at adds one entry to the map. */
  lemma Inserted(t: Tree, c: Context, n: CacheNode, key: nat, h: nat)
    requires Sorted(InOrder(t)) && SearchFrom(Top, t, key) == (c, Leaf)
    ensures var t' := Plug(c, Fork(Leaf, n, key, h, Leaf));
            Sorted(InOrder(t')) && Content(InOrder(t')) == Content(InOrder(t))[key := h]
  {
    hide Before, After, Plug, Content, SearchFrom, Sorted;
    TopIsEmpty(t, key);
    SearchIsRight(Top, t, key);
    PlugInOrder(c, Leaf);
    EntriesAround(c, Fork(Leaf, n, key, h, Leaf));
    var a, b, e := Before(c), After(c), Entry(key, h);
    assert InOrder(t) == a + b;
    assert (a + []) + [e] + ([] + b) == a + [e] + b;
    InsertedSorted(a, e, b);
    ContentAdded(a, e, b);
  }

  // ----- deleting -----

  /** remove_node_: the left subtree goes to the leftmost hole of the right one. */
  function Hang(r: Tree, l: Tree): Tree {
    match r
    case Leaf => l
    case Fork(rl, n, k, h, rr) => Fork(Hang(rl, l), n, k, h, rr)
  }

  lemma {:induction false} HangInOrder(r: Tree, l: Tree)
    ensures InOrder(Hang(r, l)) == InOrder(l) + InOrder(r)
  {
    match r
    case Leaf =>
    case Fork(rl, _, _, _, _) => HangInOrder(rl, l);
  }

  /** The entries after a removal are the entries before it, in the same order,
      without exactly the removed one; the map loses that key only. */
  lemma Removed(c: Context, t: Tree)
    requires t.Fork? && Sorted(InOrder(Plug(c, t)))
    ensures var q := InOrder(Plug(c, t));
            var i := |Before(c)| + |InOrder(t.left)|;
            var t' := Plug(c, Hang(t.right, t.left));
            && i < |q| && q[i] == Entry(t.key, t.handle)
            && InOrder(t') == Without(q, i)
            && Sorted(InOrder(t'))
            && Content(InOrder(t')) == Content(q) - {t.key}
  {
    hide Before, After, Plug, Content, Sorted, Hang;
    var a, b, e := Before(c) + InOrder(t.left), InOrder(t.right) + After(c), Entry(t.key, t.handle);
    EntriesAround(c, t);
    HangAround(c, t);
    WithoutMiddle(a, e, b);
    SortedParts(a, [e], b);
    ContentAdded(a, e, b);
    assert Content(a + b) == Content(a + [e] + b) - {t.key};
  }

  lemma HangAround(c: Context, t: Tree)
    requires t.Fork?
    ensures InOrder(Plug(c, Hang(t.right, t.left)))
            == (Before(c) + InOrder(t.left)) + (InOrder(t.right) + After(c))
  {
    hide Before, After, Plug;
    PlugInOrder(c, Hang(t.right, t.left));
    HangInOrder(t.right, t.left);
  }
}
