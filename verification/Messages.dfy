/** Message conservation: no step of the engine loses or duplicates a message. */
module Messages {
  import opened Protocol
  import opened Sequences
  import opened Matching
  import opened Engine
  import opened Conservation
  import opened Delivery

  ghost function HeldBy(r: Request): multiset<Message> {
    if Owned(r).Some? then multiset{Owned(r).value} else multiset{}
  }

  ghost function Contents(l: seq<Message>): multiset<Message> { multiset(l) }

  /** How many of the submissions below n were given m. */
  ghost function GivenCount(given: map<nat, Message>, n: nat, m: Message): nat {
    if n == 0 then 0
    else GivenCount(given, n - 1, m) + (if n - 1 in given && given[n - 1] == m then 1 else 0)
  }

  /** How often m is in the transport, in a channel list, with a removing probe
      (as long as nothing was received with it), given to a receive, or
      discarded by releasing such a probe. */
  ghost function MessageCount(s: State, m: Message): nat {
    multiset(s.index.unexpected)[m] + Sum(s.index.lists, Contents)[m]
    + Sum(s.recvQ, HeldBy)[m] + Sum(s.batch, HeldBy)[m] + Sum(s.user, HeldBy)[m]
    + GivenCount(s.index.given, s.tickets, m) + multiset(s.dropped)[m]
  }

  /** Every message is in as many places as it has arrived times. */
  ghost predicate MessagesConserved(s: State) {
    forall m :: MessageCount(s, m) == multiset(s.arrived)[m]
  }

  ghost predicate Numbered(s: State) {
    forall i | 0 <= i < |s.arrived| :: s.arrived[i].id == i
  }

  lemma {:induction false} GivenSame(given: map<nat, Message>, t: nat, m': Message, n: nat, m: Message)
    requires n <= t
    ensures GivenCount(given[t := m'], n, m) == GivenCount(given, n, m)
  {
    if n > 0 {
      GivenSame(given, t, m', n - 1, m);
    }
  }

  lemma {:induction false} GivenMore(given: map<nat, Message>, t: nat, m': Message, n: nat, m: Message)
    requires t < n && t !in given
    ensures GivenCount(given[t := m'], n, m) == GivenCount(given, n, m) + multiset{m'}[m]
  {
    if t == n - 1 {
      GivenSame(given, t, m', n - 1, m);
    } else {
      GivenMore(given, t, m', n - 1, m);
    }
  }

  /** The step from s to s' moves messages without changing any count. */
  ghost predicate Conserves(s: State, s': State, m: Message) {
    MessageCount(s', m) + multiset(s.arrived)[m] == MessageCount(s, m) + multiset(s'.arrived)[m]
  }

  /** What the engine knows about tickets that the counts below rely on. */
  ghost predicate TicketFacts(s: State) {
    TicketsConserved(s) && WaitingOrGiven(s)
  }

  lemma NextTicketFresh(s: State)
    requires TicketFacts(s)
    ensures s.tickets !in s.index.given
  {
    assert TicketCount(s, s.tickets) == 0;
    QueuedUnknown(s, s.tickets);
  }

  lemma PostedFresh(s: State, i: nat)
    requires TicketFacts(s) && i < |s.index.posted|
    ensures s.index.posted[i].ticket < s.tickets && s.index.posted[i].ticket !in s.index.given
  {
    var u := s.index.posted[i].ticket;
    PostedNotGiven(s, i);
    SumHas(s.index.posted, i, PostedTicket);
    assert HeldByTransport(s.index, u) == HandedOver(s, u);
    HandedOverOnce(s, u);
    assert TicketCount(s, u) >= 1;
  }

  lemma HeadFresh(s: State)
    requires TicketFacts(s) && s.batch != []
    ensures s.batch[0].ticket < s.tickets && s.batch[0].ticket !in s.index.given
  {
    HeadNotHandedOver(s);
    SumHas(s.batch, 0, TicketOf);
    assert TicketCount(s, s.batch[0].ticket) >= 1;
  }

  lemma ArrivalConserves(s: State, m': Message, m: Message)
    requires TicketFacts(s)
    ensures Conserves(s, DoArrival(s, m'), m)
  {
    hide TagMatches, Sum, TicketFacts;
    var i := FirstTaker(s.index.posted, m');
    if i < |s.index.posted| {
      PostedFresh(s, i);
      GivenMore(s.index.given, s.index.posted[i].ticket, m', s.tickets, m);
    }
  }

  lemma PullConserves(s: State, m: Message)
    requires Shaped(s.index) && s.index.unexpected != []
    ensures Conserves(s, s.(index := Pull(s.index)), m)
  {
    hide Chan, Sum, GivenCount;
    var u := s.index.unexpected;
    var c := Chan(u[0].tag);
    assert u == [u[0]] + u[1..];
    assert Contents(s.index.lists[c] + [u[0]]) == Contents(s.index.lists[c]) + multiset{u[0]};
    SumUpdate(s.index.lists, c, s.index.lists[c] + [u[0]], Contents);
  }

  lemma WithoutCounts(q: seq<Message>, i: nat)
    requires i < |q|
    ensures multiset(q) == multiset(Without(q, i)) + multiset{q[i]}
  {
    assert q == q[..i] + [q[i]] + q[i + 1..];
  }

  /** Taking the first match out of a list takes one message out of the lists. */
  lemma TakeCounts(x: Index, c: nat, want: Selector, m: Message)
    requires Shaped(x) && c < MAX_CHANNELS && HasMatch(x.lists[c], want)
    ensures Sum(x.lists, Contents)[m]
            == Sum(Take(x, c, want).lists, Contents)[m] + multiset{x.lists[c][FirstMatch(x.lists[c], want)]}[m]
  {
    hide FirstMatch, Sum;
    var l, i := x.lists[c], FirstMatch(x.lists[c], want);
    WithoutCounts(l, i);
    SumUpdate(x.lists, c, Without(l, i), Contents);
  }

  lemma ProbeConserves(s: State, channel: bv32, want: Selector, remove: bool, left: Fields, m: Message)
    requires Shaped(s.index) && channel < 0x100
    ensures Conserves(s, DoProbe(s, channel, want, remove, left), m)
  {
    hide DecodeTag, FirstMatch, Take, Sum, FreeOf, WithFree, GivenCount;
    var c := channel as nat;
    var s' := DoProbe(s, channel, want, remove, left);
    SumAppend(s.user, Last(s'.user), HeldBy);
    if HasMatch(s.index.lists[c], want) {
      TakeCounts(s.index, c, want, m);
    }
  }

  lemma RequestRecvConserves(s: State, i: nat, m: Message)
    requires TicketFacts(s) && Typed(s) && i < |s.user| && s.user[i].body.ProbeBody?
    ensures Conserves(s, DoRequestRecv(s, i), m)
  {
    hide Exactly, Sum, Without, TicketFacts, Typed;
    var s' := DoRequestRecv(s, i);
    NextTicketFresh(s);
    SumWithout(s.user, i, HeldBy);
    SumAppend(s.recvQ, Last(s'.recvQ), HeldBy);
  }

  lemma ReleaseConserves(s: State, i: nat, m: Message)
    requires i < |s.user|
    ensures Conserves(s, DoRelease(s, i), m)
  {
    hide Sum, Without, WithFree, FreeOf, GivenCount;
    SumWithout(s.user, i, HeldBy);
  }

  lemma RecvConserves(s: State, want: Selector, left: Fields, m: Message)
    requires TicketFacts(s)
    ensures Conserves(s, DoRecv(s, want, left), m)
  {
    hide Sum, WithFree, FreeOf, TicketFacts;
    NextTicketFresh(s);
    SumAppend(s.recvQ, Last(DoRecv(s, want, left).recvQ), HeldBy);
  }

  lemma SendConserves(s: State, channel: bv32, me: bv32, dest: bv32, tag: bv32, m: Message)
    requires TicketFacts(s)
    ensures Conserves(s, DoSend(s, channel, me, dest, tag), m)
  {
    hide Sum, WithFree, FreeOf, TicketFacts, EncodeTag;
    NextTicketFresh(s);
  }

  lemma DrainConserves(s: State, m: Message)
    requires s.batch == []
    ensures Conserves(s, DoDrain(s), m)
  {
    hide GivenCount;
  }

  /** A receive without a message of its own moves at most one message, to itself. */
  lemma PostConserves(x: Index, t: nat, c: nat, want: Selector, n: nat, m: Message)
    requires Shaped(x) && c < MAX_CHANNELS && t < n && t !in x.given
    ensures var x' := Post(x, t, c, want);
            multiset(x'.unexpected)[m] + Sum(x'.lists, Contents)[m] + GivenCount(x'.given, n, m)
            == multiset(x.unexpected)[m] + Sum(x.lists, Contents)[m] + GivenCount(x.given, n, m)
  {
    hide FirstMatch, Take, Sum, GivenCount;
    if HasMatch(x.lists[c], want) {
      TakeCounts(x, c, want, m);
      GivenMore(x.given, t, x.lists[c][FirstMatch(x.lists[c], want)], n, m);
    } else if FirstMatch(x.unexpected, want) < |x.unexpected| {
      var i := FirstMatch(x.unexpected, want);
      GivenMore(x.given, t, x.unexpected[i], n, m);
      WithoutCounts(x.unexpected, i);
    }
  }

  lemma PostNextConserves(s: State, m: Message)
    requires TicketFacts(s) && Typed(s) && Enabled(s, PostNext)
    ensures Conserves(s, DoPostNext(s), m)
  {
    hide DecodeTag, HasMatch, Post, Sum, TicketFacts, Matched, QueuedRecv, GivenCount;
    var r, x := s.batch[0], s.index;
    assert r in s.batch && !r.completed by { BatchOpen(s); }
    HeadFresh(s);
    SumTail(s.batch, HeldBy);
    match r.body.msg {
      case Some(m') => GivenMore(x.given, r.ticket, m', s.tickets, m);
      case None => PostConserves(x, r.ticket, r.fields.channel as nat, r.body.want, s.tickets, m);
    }
  }

  lemma BatchOpen(s: State)
    requires Typed(s) && s.batch != []
    ensures s.batch[0] in s.batch && !s.batch[0].completed
  {
  }

  lemma CompleteConserves(s: State, i: nat, m: Message)
    requires Typed(s) && i < |s.ops|
    ensures Conserves(s, DoComplete(s, i), m)
  {
    hide DecodeTag, Sum, SwapRemove, GivenCount;
    assert s.ops[i] in s.ops;
    SumAppend(s.user, Last(DoComplete(s, i).user), HeldBy);
  }

  lemma StepConserves(s: State, step: Step, m: Message)
    requires Enabled(s, step) && TicketFacts(s) && Typed(s)
    ensures Conserves(s, Apply(s, step), m)
  {
    hide DoArrival, DoSend, DoRecv, DoProbe, DoRequestRecv, DoRelease, DoDrain, DoPostNext, DoComplete,
      Pull, TicketFacts, Sum, GivenCount;
    match step
    case Arrival(m') => ArrivalConserves(s, m', m);
    case Send(channel, me, dest, tag) => SendConserves(s, channel, me, dest, tag, m);
    case Recv(want, left) => RecvConserves(s, want, left, m);
    case Probe(channel, want, remove, left) => ProbeConserves(s, channel, want, remove, left, m);
    case RequestRecv(i) => RequestRecvConserves(s, i, m);
    case Release(i) => ReleaseConserves(s, i, m);
    case PullOne => PullConserves(s, m);
    case Drain => DrainConserves(s, m);
    case PostNext => PostNextConserves(s, m);
    case Complete(i) => CompleteConserves(s, i, m);
    case _ =>
  }

  lemma MessagesKept(s: State, step: Step)
    requires Enabled(s, step) && TicketFacts(s) && Typed(s) && MessagesConserved(s)
    ensures MessagesConserved(Apply(s, step))
  {
    hide Apply, Enabled, MessageCount, TicketFacts, Typed;
    forall m
      ensures MessageCount(Apply(s, step), m) == multiset(Apply(s, step).arrived)[m]
    {
      StepConserves(s, step, m);
    }
  }

  // ----- reading the counts -----

  lemma CountOfArrived(s: State, i: nat)
    requires Numbered(s) && i < |s.arrived|
    ensures multiset(s.arrived)[s.arrived[i]] == 1
  {
    WithoutCounts(s.arrived, i);
    var rest := Without(s.arrived, i);
    forall j | 0 <= j < |rest|
      ensures rest[j] != s.arrived[i]
    {
      assert rest[j].id == if j < i then j else j + 1;
    }
  }

  lemma ArrivedOnce(s: State, m: Message)
    requires Numbered(s)
    ensures multiset(s.arrived)[m] <= 1
  {
    if m in s.arrived {
      var i :| 0 <= i < |s.arrived| && s.arrived[i] == m;
      CountOfArrived(s, i);
    }
  }

  lemma {:induction false} GivenTwice(given: map<nat, Message>, n: nat, t: nat, u: nat)
    requires t < u < n && t in given && u in given && given[t] == given[u]
    ensures GivenCount(given, n, given[t]) >= 2
  {
    if u == n - 1 {
      GivenOnce(given, n - 1, t);
    } else {
      GivenTwice(given, n - 1, t, u);
    }
  }

  lemma {:induction false} GivenOnce(given: map<nat, Message>, n: nat, t: nat)
    requires t < n && t in given
    ensures GivenCount(given, n, given[t]) >= 1
  {
    if t < n - 1 {
      GivenOnce(given, n - 1, t);
    }
  }

  lemma GivenIsTicket(s: State, t: nat)
    requires TicketFacts(s) && t in s.index.given
    ensures t < s.tickets
  {
    HandedOverOnce(s, t);
    assert HeldByTransport(s.index, t) == HandedOver(s, t);
    assert TicketCount(s, t) >= 1;
  }

  /** A message given to a receive is nowhere else. */
  lemma GivenIsGone(s: State, t: nat)
    requires MessagesConserved(s) && Numbered(s) && TicketFacts(s) && t in s.index.given
    ensures s.index.given[t] in s.arrived && !Present(s.index, s.index.given[t])
  {
    hide Sum, TicketsConserved, WaitingOrGiven;
    var m := s.index.given[t];
    GivenIsTicket(s, t);
    GivenOnce(s.index.given, s.tickets, t);
    ArrivedOnce(s, m);
    assert MessageCount(s, m) == multiset(s.arrived)[m];
    NotCountedNotPresent(s, m);
  }

  /** A message held by a removing probe is nowhere else. */
  lemma HeldIsGone(s: State, i: nat)
    requires MessagesConserved(s) && Numbered(s) && i < |s.user| && Owned(s.user[i]).Some?
    ensures Owned(s.user[i]).value in s.arrived && !Present(s.index, Owned(s.user[i]).value)
  {
    hide Sum, Owned;
    var m := Owned(s.user[i]).value;
    SumHas(s.user, i, HeldBy);
    assert HeldBy(s.user[i])[m] <= Sum(s.user, HeldBy)[m];
    ArrivedOnce(s, m);
    assert MessageCount(s, m) == multiset(s.arrived)[m];
    NotCountedNotPresent(s, m);
  }

  /** m is still in a list or in the transport. */
  ghost predicate Present(x: Index, m: Message) {
    m in x.unexpected || exists c | 0 <= c < |x.lists| :: m in x.lists[c]
  }

  lemma NotCountedNotPresent(s: State, m: Message)
    requires multiset(s.index.unexpected)[m] == 0 && Sum(s.index.lists, Contents)[m] == 0
    ensures !Present(s.index, m)
  {
    forall c | 0 <= c < |s.index.lists|
      ensures m !in s.index.lists[c]
    {
      SumHas(s.index.lists, c, Contents);
      assert Contents(s.index.lists[c])[m] <= Sum(s.index.lists, Contents)[m];
    }
  }
}
