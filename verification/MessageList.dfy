/** A channel's list of stored messages on the linked list: searching walks the
    nodes, and storing and removing change the stored sequence as the engine's
    lists change. */
module MessageList {
  import opened Protocol
  import opened Sequences
  import opened Matching
  import L = List

  ghost function Stored(q: seq<L.Node<Slot>>): seq<Message>
    reads q
  {
    seq(|q|, i requires 0 <= i < |q| reads q => q[i].data.Content())
  }

  /** The data of a node; a node on the free list keeps its old content. */
  datatype Slot = Unused | Used(m: Message) {
    function Content(): Message {
      if this.Used? then m else Message(0, 0, 0)
    }
  }

  /** message_search (clh.c:164-179): from the head along next to the first
      match. */
  method Search(l: L.List<Slot>, want: Selector) returns (node: L.Node?<Slot>, ghost k: nat)
    requires l.Valid()
    ensures k == FirstMatch(Stored(l.items), want)
    ensures node == L.At(l.items, FirstMatch(Stored(l.items), want))
  {
    hide TagMatches, FirstMatch;
    ghost var q := Stored(l.items);
    NextNode(l);
    node, k := l.head, 0;
    while node != null
      invariant k <= |l.items| && node == L.At(l.items, k)
      invariant forall j | 0 <= j < k :: !TagMatches(q[j].tag, want)
      decreases |l.items| - k
    {
      if TagMatches(node.data.Content().tag, want) {
        FirstMatchIs(q, want, k);
        return;
      }
      node, k := node.next, k + 1;
    }
  }

  lemma NextNode(l: L.List<Slot>)
    requires l.Valid()
    ensures l.head == L.At(l.items, 0)
    ensures forall i | 0 <= i < |l.items| :: l.items[i].next == L.At(l.items, i + 1)
  {
  }

  /** clh_list_remove_node on the node at position k. */
  method Discard(l: L.List<Slot>, node: L.Node<Slot>, ghost k: nat)
    requires l.Valid() && k < |l.items| && l.items[k] == node
    modifies l, l.items
    ensures l.Valid() && Stored(l.items) == Without(old(Stored(l.items)), k)
    ensures forall n | n in l.items || n in l.free :: n in old(l.items) || n in old(l.free)
  {
    ghost var q := Stored(l.items);
    WithoutMembers(l.items, k);
    l.RemoveNode(node, k);
    assert Stored(l.items) == Without(q, k);
  }

  /** message_search, and clh_list_remove_node on what it found. */
  method TakeFirst(l: L.List<Slot>, want: Selector) returns (m: Option<Message>)
    requires l.Valid()
    modifies l, l.items
    ensures l.Valid()
    ensures var q := old(Stored(l.items));
            if HasMatch(q, want) then
              m == Some(q[FirstMatch(q, want)]) && Stored(l.items) == Without(q, FirstMatch(q, want))
            else m == None && Stored(l.items) == q
    ensures forall n | n in l.items || n in l.free :: n in old(l.items) || n in old(l.free)
  {
    ghost var q := Stored(l.items);
    var node, k := Search(l, want);
    if node == null {
      return None;
    }
    m := Some(node.data.Content());
    Discard(l, node, k);
  }

  /** clh_list_push_data with a pulled message. */
  method Store(l: L.List<Slot>, m: Message)
    requires l.Valid()
    modifies l, l.free, l.items
    ensures l.Valid() && Stored(l.items) == old(Stored(l.items)) + [m]
    ensures forall n | n in l.items || n in l.free :: n in old(l.items) || n in old(l.free) || fresh(n)
  {
    ghost var q := l.items;
    ghost var was := Stored(q);
    l.PushData(Used(m));
    assert forall i | 0 <= i < |q| :: l.items[i] == q[i];
    assert Stored(l.items) == was + [m];
  }

  /** The nodes and the content of one list. */
  ghost predicate Holds(l: L.List<Slot>, own: set<L.Node<Slot>>, q: seq<Message>)
    reads l, own
  {
    && (forall n | n in l.items :: n in own) && (forall n | n in l.free :: n in own)
    && l.Valid() && Stored(l.items) == q
  }

  method MakeList(capacity: nat) returns (l: L.List<Slot>)
    ensures fresh(l) && fresh(l.free) && Holds(l, set n | n in l.free, [])
  {
    l := new L.List<Slot>(capacity);
  }

  /** recv_list: one list for each channel, on nodes of its own. */
  class Channels {
    const lists: array<L.List<Slot>>
    ghost const all: seq<L.List<Slot>>
    ghost var owned: seq<set<L.Node<Slot>>>
    ghost var repr: set<L.Node<Slot>>
    ghost var content: seq<seq<Message>>

    ghost predicate Valid()
      reads this, lists, all, repr
    {
      && lists.Length == MAX_CHANNELS && lists[..] == all && |owned| == |content| == MAX_CHANNELS
      && (forall c, c' | 0 <= c < c' < MAX_CHANNELS :: all[c] != all[c'] && owned[c] !! owned[c'])
      && (forall c | 0 <= c < MAX_CHANNELS :: owned[c] <= repr && Holds(all[c], owned[c], content[c]))
    }

    /** The loop of clh_init over the channels (clh.c:79-82). */
    constructor (capacity: nat)
      ensures Valid() && fresh(lists) && fresh(all) && fresh(repr)
      ensures content == seq(MAX_CHANNELS, _ => [])
    {
      var first := new L.List<Slot>(0);
      var a := new L.List<Slot>[MAX_CHANNELS](_ => first);
      ghost var made: seq<L.List<Slot>>, own: seq<set<L.Node<Slot>>>, nodes: set<L.Node<Slot>> := [], [], {};
      var c := 0;
      while c < MAX_CHANNELS
        modifies a
        invariant c <= MAX_CHANNELS && |made| == |own| == c && a.Length == MAX_CHANNELS && fresh(nodes)
        invariant forall i | 0 <= i < c :: a[i] == made[i] && fresh(made[i])
        invariant forall i | 0 <= i < c :: own[i] <= nodes && Holds(made[i], own[i], [])
        invariant forall i, j | 0 <= i < j < c :: made[i] != made[j] && own[i] !! own[j]
      {
        var l := MakeList(capacity);
        a[c] := l;
        ghost var more := set n | n in l.free;
        made, own, nodes := made + [l], own + [more], nodes + more;
        c := c + 1;
      }
      lists, all := a, made;
      owned, repr, content := own, nodes, seq(MAX_CHANNELS, _ => []);
    }

    /** message_search on list c. */
    method Find(c: nat, want: Selector) returns (node: L.Node?<Slot>, ghost k: nat)
      requires Valid() && c < MAX_CHANNELS
      ensures k == FirstMatch(content[c], want)
      ensures node == L.At(all[c].items, FirstMatch(content[c], want))
      ensures node != null <==> k < |content[c]|
      ensures node != null ==> node.data.Content() == content[c][FirstMatch(content[c], want)]
    {
      hide FirstMatch;
      assert Holds(all[c], owned[c], content[c]);
      node, k := Search(lists[c], want);
    }

    /** clh_list_remove_node on list c. */
    method Remove(c: nat, node: L.Node<Slot>, ghost k: nat)
      requires Valid() && c < MAX_CHANNELS && k < |content[c]| && node == L.At(all[c].items, k)
      modifies this`content, all, repr
      ensures Valid() && content == old(content)[c := Without(old(content[c]), k)]
    {
      assert Holds(all[c], owned[c], content[c]);
      Discard(lists[c], node, k);
      content := content[c := Without(content[c], k)];
    }

    /** clh_list_push_data on list c. */
    method Append(c: nat, m: Message)
      requires Valid() && c < MAX_CHANNELS
      modifies this`content, this`owned, this`repr, all, repr
      ensures Valid() && content == old(content)[c := old(content[c]) + [m]]
      ensures fresh(repr - old(repr))
    {
      hide L.List.Valid, Stored;
      assert Holds(all[c], owned[c], content[c]);
      Store(lists[c], m);
      ghost var l := all[c];
      ghost var more := (set n | n in l.items) + (set n | n in l.free);
      owned, repr := owned[c := owned[c] + more], repr + more;
      content := content[c := content[c] + [m]];
    }
  }
}
