/** The matching core: the transport's unexpected and posted queues and CLH's
    256 per-channel lists (clh.c:164-179, 260-309, 375-390), next to the single
    arrival-ordered queue that they have to behave like. */
module Matching {
  import opened Protocol
  import opened Sequences

  /** An arrived message. `id` is its arrival number. */
  datatype Message = Message(id: nat, tag: bv64, len: nat)

  /** A receive waiting in the transport. */
  datatype Posted = Posted(ticket: nat, want: Selector)

  /** message_search: position of the first match, or |q|. */
  function FirstMatch(q: seq<Message>, s: Selector): (i: nat)
    ensures i <= |q|
    ensures i < |q| ==> TagMatches(q[i].tag, s)
    ensures forall j | 0 <= j < i :: !TagMatches(q[j].tag, s)
  {
    if q == [] || TagMatches(q[0].tag, s) then 0 else 1 + FirstMatch(q[1..], s)
  }

  /** The oldest posted receive that accepts m, or |posted|. */
  function FirstTaker(posted: seq<Posted>, m: Message): (i: nat)
    ensures i <= |posted|
    ensures i < |posted| ==> TagMatches(m.tag, posted[i].want)
    ensures forall j | 0 <= j < i :: !TagMatches(m.tag, posted[j].want)
  {
    if posted == [] || TagMatches(m.tag, posted[0].want) then 0 else 1 + FirstTaker(posted[1..], m)
  }

  predicate HasMatch(q: seq<Message>, s: Selector) {
    FirstMatch(q, s) < |q|
  }

  // ----- the specification: one queue -----

  /** Untaken messages in arrival order, waiting receives in posting order, and
      what every receive was given. */
  datatype Queue = Queue(waiting: seq<Message>, posted: seq<Posted>, given: map<nat, Message>)

  function QArrive(q: Queue, m: Message): Queue {
    var i := FirstTaker(q.posted, m);
    if i < |q.posted| then
      q.(posted := Without(q.posted, i), given := q.given[q.posted[i].ticket := m])
    else
      q.(waiting := q.waiting + [m])
  }

  function QPost(q: Queue, ticket: nat, s: Selector): Queue {
    var i := FirstMatch(q.waiting, s);
    if i < |q.waiting| then
      q.(waiting := Without(q.waiting, i), given := q.given[ticket := q.waiting[i]])
    else
      q.(posted := q.posted + [Posted(ticket, s)])
  }

  function QTake(q: Queue, s: Selector): Queue
    requires HasMatch(q.waiting, s)
  {
    q.(waiting := Without(q.waiting, FirstMatch(q.waiting, s)))
  }

  function QGive(q: Queue, ticket: nat, m: Message): Queue {
    q.(given := q.given[ticket := m])
  }

  // ----- the implementation: transport queues and per-channel lists -----

  datatype Index = Index(
    lists: seq<seq<Message>>,    // recv_list
    unexpected: seq<Message>,    // in the transport, oldest first
    posted: seq<Posted>,         // in the transport, oldest first
    given: map<nat, Message>)

  predicate Shaped(x: Index) {
    |x.lists| == MAX_CHANNELS
  }

  /** A message reaches the transport. */
  function Arrive(x: Index, m: Message): Index {
    var i := FirstTaker(x.posted, m);
    if i < |x.posted| then
      x.(posted := Without(x.posted, i), given := x.given[x.posted[i].ticket := m])
    else
      x.(unexpected := x.unexpected + [m])
  }

  /** probe_incomming_messages_: the oldest unexpected message moves to its list. */
  function Pull(x: Index): (r: Index)
    requires Shaped(x) && x.unexpected != []
    ensures Shaped(r) && r.posted == x.posted && r.given == x.given
  {
    var m := x.unexpected[0];
    var c := Chan(m.tag);
    x.(unexpected := x.unexpected[1..], lists := x.lists[c := x.lists[c] + [m]])
  }

  /** A receive reaches the transport: the oldest unexpected match, or wait. */
  function Hand(x: Index, ticket: nat, s: Selector): Index {
    var i := FirstMatch(x.unexpected, s);
    if i < |x.unexpected| then
      x.(unexpected := Without(x.unexpected, i), given := x.given[ticket := x.unexpected[i]])
    else
      x.(posted := x.posted + [Posted(ticket, s)])
  }

  /** One receive of process_recv_queue_ with no message of its own: search
      list c, and hand the receive to the transport when that fails. */
  function Post(x: Index, ticket: nat, c: nat, s: Selector): (r: Index)
    requires Shaped(x) && c < MAX_CHANNELS
    ensures Shaped(r)
    // either the receive waits, or it has been given a message that matches it
    ensures (r.posted == x.posted + [Posted(ticket, s)] && r.given == x.given)
            || (r.posted == x.posted && exists m: Message :: TagMatches(m.tag, s) && r.given == x.given[ticket := m])
  {
    if HasMatch(x.lists[c], s) then
      var i := FirstMatch(x.lists[c], s);
      Give(Take(x, c, s), ticket, x.lists[c][i])
    else Hand(x, ticket, s)
  }

  /** The first match leaves list c. */
  function Take(x: Index, c: nat, s: Selector): (r: Index)
    requires Shaped(x) && c < MAX_CHANNELS && HasMatch(x.lists[c], s)
    ensures Shaped(r) && r == x.(lists := r.lists)
  {
    x.(lists := x.lists[c := Without(x.lists[c], FirstMatch(x.lists[c], s))])
  }

  /** A receive that already owns its message. */
  function Give(x: Index, ticket: nat, m: Message): Index {
    x.(given := x.given[ticket := m])
  }

  // ----- the relation between the two -----

  /** The messages of q on channel c, in order. */
  function OnChannel(q: seq<Message>, c: nat): seq<Message> {
    if q == [] then []
    else (if Chan(q[0].tag) == c then [q[0]] else []) + OnChannel(q[1..], c)
  }

  /** List c followed by the channel-c messages still in the transport is the
      channel-c part of the one queue. */
  ghost predicate Refines(x: Index, q: Queue) {
    && Shaped(x)
    && x.posted == q.posted
    && x.given == q.given
    && forall c | 0 <= c < MAX_CHANNELS ::
         x.lists[c] + OnChannel(x.unexpected, c) == OnChannel(q.waiting, c)
  }

  lemma {:induction false} OnChannelConcat(a: seq<Message>, b: seq<Message>, c: nat)
    ensures OnChannel(a + b, c) == OnChannel(a, c) + OnChannel(b, c)
  {
    if a == [] {
      assert a + b == b;
    } else {
      assert (a + b)[1..] == a[1..] + b;
      var h := if Chan(a[0].tag) == c then [a[0]] else [];
      calc {
        OnChannel(a + b, c);
        h + OnChannel(a[1..] + b, c);
        { OnChannelConcat(a[1..], b, c); }
        h + (OnChannel(a[1..], c) + OnChannel(b, c));
        (h + OnChannel(a[1..], c)) + OnChannel(b, c);
        OnChannel(a, c) + OnChannel(b, c);
      }
    }
  }

  lemma {:induction false} OnChannelMembers(q: seq<Message>, c: nat)
    ensures forall m :: m in OnChannel(q, c) <==> m in q && Chan(m.tag) == c
  {
    if q != [] {
      OnChannelMembers(q[1..], c);
      assert q == [q[0]] + q[1..];
    }
  }

  /** A position with a match and none before it is the first match. */
  lemma FirstMatchIs(q: seq<Message>, s: Selector, i: nat)
    requires i < |q| && TagMatches(q[i].tag, s)
    requires forall j | 0 <= j < i :: !TagMatches(q[j].tag, s)
    ensures FirstMatch(q, s) == i
  {
  }

  lemma NoMatchIn(q: seq<Message>, s: Selector)
    ensures HasMatch(q, s) <==> exists m :: m in q && TagMatches(m.tag, s)
  {
    if HasMatch(q, s) {
      assert q[FirstMatch(q, s)] in q;
    }
  }

  /** Taking one message out of q takes it out of its own channel only. */
  lemma SplitOnChannel(q: seq<Message>, i: nat, c: nat)
    requires i < |q|
    ensures Chan(q[i].tag) != c ==> OnChannel(Without(q, i), c) == OnChannel(q, c)
    ensures Chan(q[i].tag) == c ==>
              var a, b := OnChannel(q[..i], c), OnChannel(q[i + 1..], c);
              OnChannel(q, c) == a + [q[i]] + b && OnChannel(Without(q, i), c) == a + b
  {
    hide Chan;
    assert q == (q[..i] + [q[i]]) + q[i + 1..];
    OnChannelConcat(q[..i] + [q[i]], q[i + 1..], c);
    OnChannelConcat(q[..i], [q[i]], c);
    OnChannelConcat(q[..i], q[i + 1..], c);
    assert [q[i]][1..] == [];
  }

  /** A selector that pins its channel matches in q exactly when it matches in
      the channel's part of q. */
  lemma HasMatchOnChannel(q: seq<Message>, s: Selector)
    requires OneChannel(s)
    ensures HasMatch(q, s) <==> HasMatch(OnChannel(q, Chan(s.tag)), s)
  {
    NoMatchIn(q, s);
    NoMatchIn(OnChannel(q, Chan(s.tag)), s);
    OnChannelMembers(q, Chan(s.tag));
    forall m | m in q && TagMatches(m.tag, s)
      ensures Chan(m.tag) == Chan(s.tag)
    {
      MatchesStayOnChannel(m.tag, s);
    }
  }

  /** The first match of q is the first match of the channel's part of q, and
      taking it out of one takes it out of the other. */
  lemma FirstMatchOnChannel(q: seq<Message>, s: Selector)
    requires OneChannel(s) && HasMatch(q, s)
    ensures HasMatch(OnChannel(q, Chan(s.tag)), s)
    ensures var i, f := FirstMatch(q, s), OnChannel(q, Chan(s.tag));
            var j := FirstMatch(f, s);
            && f[j] == q[i]
            && OnChannel(Without(q, i), Chan(s.tag)) == Without(f, j)
            && forall c: nat | c != Chan(s.tag) :: OnChannel(Without(q, i), c) == OnChannel(q, c)
  {
    hide TagMatches, Chan, OneChannel, FirstMatch, OnChannel;
    var i, k := FirstMatch(q, s), Chan(s.tag);
    MatchesStayOnChannel(q[i].tag, s);
    forall c: nat | c != k
      ensures OnChannel(Without(q, i), c) == OnChannel(q, c)
    {
      SplitOnChannel(q, i, c);
    }
    SplitOnChannel(q, i, k);
    var f, a, b := OnChannel(q, k), OnChannel(q[..i], k), OnChannel(q[i + 1..], k);
    WithoutMiddle(a, q[i], b);
    OnChannelMembers(q[..i], k);
    forall j | 0 <= j < |a|
      ensures !TagMatches(f[j].tag, s)
    {
      assert a[j] in q[..i];
    }
    FirstMatchIs(f, s, |a|);
  }

  /** Searching a first part and then a second is searching the whole. */
  lemma FirstMatchInLeft(a: seq<Message>, b: seq<Message>, s: Selector)
    requires HasMatch(a, s)
    ensures FirstMatch(a + b, s) == FirstMatch(a, s)
    ensures Without(a + b, FirstMatch(a, s)) == Without(a, FirstMatch(a, s)) + b
  {
    FirstMatchIs(a + b, s, FirstMatch(a, s));
  }

  lemma FirstMatchInRight(a: seq<Message>, b: seq<Message>, s: Selector)
    requires !HasMatch(a, s)
    ensures FirstMatch(a + b, s) == |a| + FirstMatch(b, s)
  {
    hide TagMatches;
    var k := |a| + FirstMatch(b, s);
    forall i | 0 <= i < k
      ensures !TagMatches((a + b)[i].tag, s)
    {
      assert (a + b)[i] == if i < |a| then a[i] else b[i - |a|];
    }
    if k < |a + b| {
      assert (a + b)[k] == b[k - |a|];
      FirstMatchIs(a + b, s, k);
    }
  }

  // ----- every operation keeps the relation -----

  lemma ArriveRefines(x: Index, q: Queue, m: Message)
    requires Refines(x, q)
    ensures Refines(Arrive(x, m), QArrive(q, m))
  {
    if FirstTaker(x.posted, m) == |x.posted| {
      forall c: nat | c < MAX_CHANNELS
        ensures x.lists[c] + OnChannel(x.unexpected + [m], c) == OnChannel(q.waiting + [m], c)
      {
        OnChannelConcat(x.unexpected, [m], c);
        OnChannelConcat(q.waiting, [m], c);
      }
    }
  }

  /** Pulling a message out of the transport is invisible. */
  lemma PullRefines(x: Index, q: Queue)
    requires Refines(x, q) && x.unexpected != []
    ensures Refines(Pull(x), q)
  {
    hide TagMatches, DecodeTag, FirstMatch;
    var m := x.unexpected[0];
    forall c: nat | c < MAX_CHANNELS
      ensures Pull(x).lists[c] + OnChannel(x.unexpected[1..], c) == OnChannel(q.waiting, c)
    {
      assert x.lists[c] + OnChannel(x.unexpected, c) == OnChannel(q.waiting, c);
    }
  }

  /** A probe's or a receive's hit in a list is the first match of the one queue. */
  lemma TakeRefines(x: Index, q: Queue, s: Selector)
    requires Refines(x, q) && OneChannel(s) && HasMatch(x.lists[Chan(s.tag)], s)
    ensures HasMatch(q.waiting, s)
    ensures var l := x.lists[Chan(s.tag)]; l[FirstMatch(l, s)] == q.waiting[FirstMatch(q.waiting, s)]
    ensures Refines(Take(x, Chan(s.tag), s), QTake(q, s))
  {
    hide TagMatches, Chan, OneChannel, FirstMatch, OnChannel;
    var k := Chan(s.tag);
    FirstMatchInLeft(x.lists[k], OnChannel(x.unexpected, k), s);
    HasMatchOnChannel(q.waiting, s);
    FirstMatchOnChannel(q.waiting, s);
    forall c: nat | c < MAX_CHANNELS
      ensures Take(x, k, s).lists[c] + OnChannel(x.unexpected, c) == OnChannel(QTake(q, s).waiting, c)
    {
      assert x.lists[c] + OnChannel(x.unexpected, c) == OnChannel(q.waiting, c);
    }
  }

  /** The case where only the transport holds a match. */
  lemma TransportTakeRefines(x: Index, q: Queue, s: Selector)
    requires Refines(x, q) && OneChannel(s)
    requires !HasMatch(x.lists[Chan(s.tag)], s) && HasMatch(x.unexpected, s)
    ensures HasMatch(q.waiting, s)
    ensures x.unexpected[FirstMatch(x.unexpected, s)] == q.waiting[FirstMatch(q.waiting, s)]
    ensures Refines(x.(unexpected := Without(x.unexpected, FirstMatch(x.unexpected, s))), QTake(q, s))
  {
    hide TagMatches, Chan, OneChannel, FirstMatch, OnChannel;
    var k := Chan(s.tag);
    var l, f := x.lists[k], OnChannel(x.unexpected, k);
    FirstMatchOnChannel(x.unexpected, s);
    FirstMatchInRight(l, f, s);
    HasMatchOnChannel(q.waiting, s);
    FirstMatchOnChannel(q.waiting, s);
    var i := FirstMatch(f, s);
    WithoutInRight(l, f, i);
    var u := Without(x.unexpected, FirstMatch(x.unexpected, s));
    forall c: nat | c < MAX_CHANNELS
      ensures x.lists[c] + OnChannel(u, c) == OnChannel(QTake(q, s).waiting, c)
    {
      assert x.lists[c] + OnChannel(x.unexpected, c) == OnChannel(q.waiting, c);
    }
  }

  /** A receive finds in lists-then-transport what it would find in the one queue. */
  lemma PostRefines(x: Index, q: Queue, ticket: nat, s: Selector)
    requires Refines(x, q) && OneChannel(s)
    ensures Refines(Post(x, ticket, Chan(s.tag), s), QPost(q, ticket, s))
  {
    hide TagMatches, Chan, OneChannel, FirstMatch, OnChannel;
    var l, f := x.lists[Chan(s.tag)], OnChannel(x.unexpected, Chan(s.tag));
    if HasMatch(l, s) {
      TakeRefines(x, q, s);
    } else if HasMatch(x.unexpected, s) {
      TransportTakeRefines(x, q, s);
    } else {
      HasMatchOnChannel(q.waiting, s);
      HasMatchOnChannel(x.unexpected, s);
      FirstMatchInRight(l, f, s);
    }
  }
}
