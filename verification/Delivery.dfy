/** What the collections of the engine contain, and that an in-flight receive
    is either waiting in the transport or holds one message that matches it. */
module Delivery {
  import opened Protocol
  import opened Sequences
  import opened Matching
  import opened Engine
  import opened Conservation

  // ----- shape of the requests in each collection -----

  /** A receive that came from a probe: it asks for the probed tag and nothing
      else, and its fields already are that tag's. */
  ghost predicate FromProbe(r: Request) {
    r.body.RecvBody? && r.body.want == Exactly(r.body.want.tag) && r.fields == DecodeTag(r.body.want.tag)
  }

  ghost predicate QueuedSend(r: Request) {
    r.kind == SendKind && r.body.SendBody? && !r.completed
  }

  ghost predicate SomeRecv(r: Request) {
    r.kind != SendKind && r.body.RecvBody? && !r.completed && (r.kind == ProbeKind ==> FromProbe(r))
  }

  /** Nothing is said of the channel that a node of the receive pool holds. */
  ghost predicate QueuedRecv(r: Request) {
    && SomeRecv(r)
    && OneChannel(r.body.want)
    && (r.body.msg.Some? ==> r.kind == ProbeKind && TagMatches(r.body.msg.value.tag, r.body.want))
  }

  ghost predicate InHand(r: Request) {
    && r.completed
    && (r.body.ProbeBody? ==>
          && r.kind == ProbeKind
          && (r.body.result <==> r.body.found.Some?)
          && (r.body.result ==> r.body.senderTag == r.body.found.value.tag && r.fields == DecodeTag(r.body.senderTag)))
    && (r.body.RecvBody? ==> r.fields.channel < 0x100)
  }

  /** Every stored message lies in the list of its own channel. */
  ghost predicate Filed(x: Index) {
    forall c, m | 0 <= c < |x.lists| && m in x.lists[c] :: Chan(m.tag) == c
  }

  ghost predicate Typed(s: State) {
    && Shaped(s.index) && Filed(s.index)
    && (forall r | r in s.sendQ :: QueuedSend(r))
    && (forall r | r in s.recvQ :: QueuedRecv(r))
    && (forall r | r in s.batch :: QueuedRecv(r))
    && (forall r | r in s.ops :: QueuedSend(r) || SomeRecv(r))
    && (forall r | r in s.user :: InHand(r))
  }

  lemma SmallChannel(tag: bv64)
    ensures DecodeTag(tag).channel < 0x100
  {
  }

  lemma ExactlyOneChannel(tag: bv64)
    ensures OneChannel(Exactly(tag)) && Exactly(tag).tag == tag
    ensures TagMatches(tag, Exactly(tag))
  {
  }

  lemma ProbedInHand(n: nat, list: seq<Message>, want: Selector, remove: bool, left: Fields, ticket: nat)
    ensures InHand(Probed(n, list, want, remove, left, ticket))
  {
  }

  lemma RequestedRecv(r: Request, t: nat)
    requires InHand(r) && r.body.ProbeBody? && r.body.result
    ensures QueuedRecv(r.(completed := false, ticket := t,
                          body := RecvBody(Exactly(r.body.senderTag), if r.body.remove then r.body.found else None)))
  {
    hide DecodeTag, OneChannel, TagMatches;
    ExactlyOneChannel(r.body.senderTag);
  }

  /** Picking up a stored message keeps the receive's identity and its wish. */
  lemma MatchedSomeRecv(r: Request, index: Index)
    requires QueuedRecv(r) && Shaped(index) && r.fields.channel < 0x100
    ensures var r' := Matched(r, index);
            SomeRecv(r') && r'.ticket == r.ticket && r'.kind == r.kind && r'.body.want == r.body.want
  {
    hide DecodeTag, Exactly, TagMatches;
    var list := index.lists[r.fields.channel as nat];
    if r.body.msg == None && HasMatch(list, r.body.want) && r.kind == ProbeKind {
      var m := list[FirstMatch(list, r.body.want)];
      ExactlyMeaning(m.tag, r.body.want.tag);
    }
  }

  lemma PullFiled(x: Index)
    requires Shaped(x) && Filed(x) && x.unexpected != []
    ensures Filed(Pull(x))
  {
    hide Chan;
  }

  lemma TakeFiled(x: Index, c: nat, want: Selector)
    requires Shaped(x) && Filed(x) && c < MAX_CHANNELS && HasMatch(x.lists[c], want)
    ensures Filed(Take(x, c, want))
  {
    hide Chan, TagMatches, FirstMatch;
    WithoutMembers(x.lists[c], FirstMatch(x.lists[c], want));
  }

  lemma PostFiled(x: Index, ticket: nat, c: nat, want: Selector)
    requires Shaped(x) && Filed(x) && c < MAX_CHANNELS
    ensures Filed(Post(x, ticket, c, want))
  {
    hide Chan, TagMatches, FirstMatch;
    if HasMatch(x.lists[c], want) { TakeFiled(x, c, want); }
  }

  lemma ProbeTyped(s: State, channel: bv32, want: Selector, remove: bool, left: Fields)
    requires Typed(s) && channel < 0x100
    ensures Typed(DoProbe(s, channel, want, remove, left))
  {
    hide DecodeTag, HasMatch, FirstMatch, Probed, Take, FreeOf, WithFree, NodeFor, InHand, QueuedRecv, SomeRecv, Filed;
    ProbedInHand(NodeFor(s, ProbeKind), s.index.lists[channel as nat], want, remove, left, s.tickets);
    if HasMatch(s.index.lists[channel as nat], want) {
      TakeFiled(s.index, channel as nat, want);
    }
  }

  lemma RecvTyped(s: State, want: Selector, left: Fields)
    requires Typed(s) && OneChannel(want)
    ensures Typed(DoRecv(s, want, left))
  {
    hide DecodeTag, OneChannel, FreeOf, WithFree, NodeFor, InHand;
  }

  lemma SameFiled(x: Index, x': Index)
    requires Filed(x) && x'.lists == x.lists
    ensures Filed(x')
  {
  }

  lemma RequestRecvTyped(s: State, i: nat)
    requires Typed(s) && i < |s.user| && s.user[i].body.ProbeBody? && s.user[i].body.result
    ensures Typed(DoRequestRecv(s, i))
  {
    hide Exactly, InHand, QueuedRecv, SomeRecv;
    assert s.user[i] in s.user;
    RequestedRecv(s.user[i], s.tickets);
    WithoutMembers(s.user, i);
  }

  lemma PostNextTyped(s: State)
    requires Typed(s) && Enabled(s, PostNext)
    ensures Typed(DoPostNext(s))
  {
    hide DecodeTag, HasMatch, FirstMatch, Matched, QueuedRecv, SomeRecv, QueuedSend, InHand, Filed, Post;
    var r := s.batch[0];
    assert r in s.batch;
    MatchedSomeRecv(r, s.index);
    if r.body.msg == None {
      PostFiled(s.index, r.ticket, r.fields.channel as nat, r.body.want);
    } else {
      assert DoPostNext(s).index.lists == s.index.lists;
      SameFiled(s.index, DoPostNext(s).index);
    }
  }

  lemma FinishedInHand(s: State, r: Request)
    requires (QueuedSend(r) || SomeRecv(r)) && Ready(s, r)
    ensures InHand(Finished(s, r))
  {
    hide DecodeTag, Exactly;
    if r.body.RecvBody? {
      SmallChannel(r.body.want.tag);
      SmallChannel(s.index.given[r.ticket].tag);
    }
  }

  lemma CompleteTyped(s: State, i: nat)
    requires Typed(s) && i < |s.ops| && Ready(s, s.ops[i])
    ensures Typed(DoComplete(s, i))
  {
    hide DecodeTag, QueuedRecv, InHand, SomeRecv, QueuedSend, Filed, Finished, Ready;
    SwapRemoveMembers(s.ops, i);
    assert s.ops[i] in s.ops;
    FinishedInHand(s, s.ops[i]);
  }

  lemma TypedKept(s: State, step: Step)
    requires Enabled(s, step) && Typed(s)
    ensures Typed(Apply(s, step))
  {
    hide DecodeTag, EncodeTag, OneChannel, DoRecv, DoProbe, DoRequestRecv, DoPostNext, DoComplete,
      FirstTaker, FreeOf, WithFree, NodeFor, InHand, Pull, SomeRecv, Filed;
    match step
    case Recv(want, left) => RecvTyped(s, want, left);
    case Probe(channel, want, remove, left) => ProbeTyped(s, channel, want, remove, left);
    case RequestRecv(i) => RequestRecvTyped(s, i);
    case Release(i) => WithoutMembers(s.user, i);
    case SubmitSend => assert Last(s.sendQ) in s.sendQ;
    case PostNext => PostNextTyped(s);
    case Complete(i) => CompleteTyped(s, i);
    case PullOne => PullFiled(s.index);
    case Arrival(m) => SameFiled(s.index, Arrive(s.index, m));
    case _ =>
  }

  // ----- who waits and who has been given a message -----

  ghost function PostedTicket(p: Posted): multiset<nat> { multiset{p.ticket} }

  ghost function RecvTicket(r: Request): multiset<nat> {
    if r.body.RecvBody? then multiset{r.ticket} else multiset{}
  }

  ghost function LogRecvTicket(c: Completion): multiset<nat> { RecvTicket(c.request) }

  /** Submission t as the transport sees it: waiting there, or given a message. */
  ghost function HeldByTransport(x: Index, t: nat): nat {
    Sum(x.posted, PostedTicket)[t] + (if t in x.given then 1 else 0)
  }

  /** Submission t as a receive handed to the transport. */
  ghost function HandedOver(s: State, t: nat): nat {
    Sum(s.ops, RecvTicket)[t] + Sum(s.log, LogRecvTicket)[t]
  }

  /** Every receive handed over is waiting or has exactly one message, and
      nothing else is. */
  ghost predicate WaitingOrGiven(s: State) {
    forall t: nat :: HeldByTransport(s.index, t) == HandedOver(s, t)
  }

  /** A message given to a receive matches it; a waiting entry asks for what
      its receive asks for. */
  ghost predicate GivenMatch(s: State) {
    && (forall r | r in s.ops && r.body.RecvBody? && r.ticket in s.index.given ::
          TagMatches(s.index.given[r.ticket].tag, r.body.want))
    && (forall r, p | r in s.ops && p in s.index.posted && r.ticket == p.ticket ::
          r.body.RecvBody? && r.body.want == p.want)
  }

  /** The completion log: a completed receive reports the fields of its message. */
  ghost predicate LogRight(s: State) {
    forall c | c in s.log ::
      && c.request.completed
      && (c.request.body.SendBody? || c.request.body.RecvBody?)
      && (c.message.Some? <==> c.request.body.RecvBody?)
      && (c.message.Some? ==>
            && c.request.ticket in s.index.given && s.index.given[c.request.ticket] == c.message.value
            && TagMatches(c.message.value.tag, c.request.body.want)
            && c.request.fields == DecodeTag(c.message.value.tag))
  }

  // ----- preservation -----

  /** The other steps leave the transport's view of receives alone. */
  lemma OthersQuiet(s: State, step: Step)
    requires Enabled(s, step)
    requires !(step.Arrival? || step.SubmitSend? || step.PostNext? || step.Complete?)
    ensures var s' := Apply(s, step);
            && s'.ops == s.ops && s'.log == s.log && s'.sendCount == s.sendCount
            && s'.index.posted == s.index.posted && s'.index.given == s.index.given
  {
    hide Pull, Take, HasMatch, FirstMatch, FreeOf, WithFree, NodeFor, Probed;
  }

  /** The counts of submission t on both sides move together. */
  ghost predicate Together(s: State, s': State, t: nat) {
    HeldByTransport(s'.index, t) + HandedOver(s, t) == HandedOver(s', t) + HeldByTransport(s.index, t)
  }

  lemma ArrivalTogether(s: State, m: Message, t: nat)
    requires WaitingOrGiven(s) && TicketsConserved(s)
    ensures Together(s, DoArrival(s, m), t)
  {
    hide TagMatches, Sum;
    var i := FirstTaker(s.index.posted, m);
    if i < |s.index.posted| {
      var u := s.index.posted[i].ticket;
      assert HeldByTransport(s.index, u) == HandedOver(s, u);
      SumWithout(s.index.posted, i, PostedTicket);
      HandedOverOnce(s, u);
    }
  }

  /** A submission is handed over at most once, and not while it is queued. */
  lemma HandedOverOnce(s: State, t: nat)
    requires TicketsConserved(s)
    ensures HandedOver(s, t) <= Sum(s.ops, TicketOf)[t] + Sum(s.log, LogTicket)[t]
    ensures HandedOver(s, t) <= 1
  {
    RecvTicketsAreTickets(s.ops, t);
    LogRecvTicketsAreTickets(s.log, t);
    assert TicketCount(s, t) <= 1;
  }

  lemma {:induction false} RecvTicketsAreTickets(q: seq<Request>, t: nat)
    ensures Sum(q, RecvTicket)[t] <= Sum(q, TicketOf)[t]
  {
    if q != [] {
      RecvTicketsAreTickets(q[1..], t);
    }
  }

  lemma {:induction false} LogRecvTicketsAreTickets(q: seq<Completion>, t: nat)
    ensures Sum(q, LogRecvTicket)[t] <= Sum(q, LogTicket)[t]
  {
    if q != [] {
      LogRecvTicketsAreTickets(q[1..], t);
    }
  }

  /** The submission at the head of the batch has not been handed over. */
  lemma HeadNotHandedOver(s: State)
    requires TicketsConserved(s) && WaitingOrGiven(s) && s.batch != []
    ensures HandedOver(s, s.batch[0].ticket) == 0
    ensures s.batch[0].ticket !in s.index.given
    ensures forall p | p in s.index.posted :: p.ticket != s.batch[0].ticket
    ensures forall r | r in s.ops :: r.ticket != s.batch[0].ticket
  {
    var t := s.batch[0].ticket;
    SumHas(s.batch, 0, TicketOf);
    assert TicketCount(s, t) <= 1;
    HandedOverOnce(s, t);
    assert HeldByTransport(s.index, t) == 0;
    forall p | p in s.index.posted
      ensures p.ticket != t
    {
      var i :| 0 <= i < |s.index.posted| && s.index.posted[i] == p;
      SumHas(s.index.posted, i, PostedTicket);
    }
    forall r | r in s.ops
      ensures r.ticket != t
    {
      var i :| 0 <= i < |s.ops| && s.ops[i] == r;
      SumHas(s.ops, i, TicketOf);
    }
  }

  lemma PostNextTogether(s: State, t: nat)
    requires WaitingOrGiven(s) && TicketsConserved(s) && Typed(s) && Enabled(s, PostNext)
    ensures Together(s, DoPostNext(s), t)
  {
    hide TagMatches, Sum, Post, DecodeTag, Matched, HasMatch;
    var r, s' := s.batch[0], DoPostNext(s);
    assert r in s.batch;
    HeadNotHandedOver(s);
    MatchedSomeRecv(r, s.index);
    assert HandedOver(s', t) == HandedOver(s, t) + multiset{r.ticket}[t] by {
      SumAppend(s.ops, Last(s'.ops), RecvTicket);
    }
    if s'.index.posted != s.index.posted {
      SumAppend(s.index.posted, Last(s'.index.posted), PostedTicket);
    }
  }

  lemma CompleteTogether(s: State, i: nat, t: nat)
    requires i < |s.ops|
    ensures Together(s, DoComplete(s, i), t)
  {
    hide Sum, SwapRemove, DecodeTag, MessageOf;
    var s' := DoComplete(s, i);
    SumSwapRemove(s.ops, i, RecvTicket);
    SumAppend(s.log, Last(s'.log), LogRecvTicket);
  }

  lemma SubmitSendTogether(s: State, t: nat)
    requires s.sendQ != [] && Typed(s)
    ensures Together(s, DoSubmitSend(s), t)
  {
    hide Sum;
    assert Last(s.sendQ) in s.sendQ;
    SumAppend(s.ops, Last(s.sendQ), RecvTicket);
  }

  lemma StepTogether(s: State, step: Step, t: nat)
    requires Enabled(s, step) && WaitingOrGiven(s) && TicketsConserved(s) && Typed(s)
    ensures Together(s, Apply(s, step), t)
  {
    hide DoArrival, DoPostNext, DoComplete, DoSubmitSend, Sum, Typed, TicketsConserved, WaitingOrGiven;
    match step
    case Arrival(m) => ArrivalTogether(s, m, t);
    case SubmitSend => SubmitSendTogether(s, t);
    case PostNext => PostNextTogether(s, t);
    case Complete(i) => CompleteTogether(s, i, t);
    case _ => OthersQuiet(s, step);
  }

  lemma WaitingOrGivenKept(s: State, step: Step)
    requires Enabled(s, step) && WaitingOrGiven(s) && TicketsConserved(s) && Typed(s)
    ensures WaitingOrGiven(Apply(s, step))
  {
    hide Apply, Enabled, HeldByTransport, HandedOver, Typed, TicketsConserved;
    forall t: nat
      ensures HeldByTransport(Apply(s, step).index, t) == HandedOver(Apply(s, step), t)
    {
      StepTogether(s, step, t);
    }
  }

  // ----- a given message matches -----

  lemma GivenMatchKept(s: State, step: Step)
    requires Enabled(s, step) && WaitingOrGiven(s) && TicketsConserved(s) && Typed(s) && GivenMatch(s)
    ensures GivenMatch(Apply(s, step))
  {
    hide DoArrival, DoSubmitSend, DoPostNext, DoComplete, TagMatches, TicketsConserved, WaitingOrGiven, Typed;
    match step
    case Arrival(m) => ArrivalMatch(s, m);
    case SubmitSend => SubmitSendMatch(s);
    case PostNext => PostNextMatch(s);
    case Complete(i) => CompleteMatch(s, i);
    case _ => OthersQuiet(s, step);
  }

  lemma CompleteMatch(s: State, i: nat)
    requires GivenMatch(s) && i < |s.ops|
    ensures GivenMatch(DoComplete(s, i))
  {
    hide TagMatches;
    SwapRemoveMembers(s.ops, i);
  }

  lemma ArrivalMatch(s: State, m: Message)
    requires GivenMatch(s)
    ensures GivenMatch(DoArrival(s, m))
  {
    hide TagMatches;
    var i := FirstTaker(s.index.posted, m);
    if i < |s.index.posted| {
      assert s.index.posted[i] in s.index.posted;
      WithoutMembers(s.index.posted, i);
    }
  }

  /** Nothing is known to the transport about a submission that is still queued. */
  lemma QueuedUnknown(s: State, t: nat)
    requires TicketsConserved(s) && WaitingOrGiven(s)
    requires Sum(s.ops, TicketOf)[t] + Sum(s.log, LogTicket)[t] == 0
    ensures t !in s.index.given
    ensures forall p | p in s.index.posted :: p.ticket != t
  {
    HandedOverOnce(s, t);
    assert HeldByTransport(s.index, t) == 0;
    forall p | p in s.index.posted
      ensures p.ticket != t
    {
      var i :| 0 <= i < |s.index.posted| && s.index.posted[i] == p;
      SumHas(s.index.posted, i, PostedTicket);
    }
  }

  lemma SubmitSendMatch(s: State)
    requires s.sendQ != [] && TicketsConserved(s) && WaitingOrGiven(s) && Typed(s) && GivenMatch(s)
    ensures GivenMatch(DoSubmitSend(s))
  {
    hide TagMatches, Sum;
    var r := Last(s.sendQ);
    assert r in s.sendQ;
    SumHas(s.sendQ, |s.sendQ| - 1, TicketOf);
    assert TicketCount(s, r.ticket) <= 1;
    QueuedUnknown(s, r.ticket);
  }

  lemma PostNextMatch(s: State)
    requires TicketsConserved(s) && WaitingOrGiven(s) && Typed(s) && GivenMatch(s) && Enabled(s, PostNext)
    ensures GivenMatch(DoPostNext(s))
  {
    hide TagMatches, Sum, DecodeTag, Matched, Post, HasMatch, TicketsConserved, WaitingOrGiven;
    var r, s' := s.batch[0], DoPostNext(s);
    assert r in s.batch;
    HeadNotHandedOver(s);
    MatchedSomeRecv(r, s.index);
    assert Last(s'.ops).ticket == r.ticket && Last(s'.ops).body.want == r.body.want;
  }

  // ----- what a completed receive reports -----

  /** A receive that waits in the transport has not been given anything. */
  lemma PostedNotGiven(s: State, i: nat)
    requires WaitingOrGiven(s) && TicketsConserved(s) && i < |s.index.posted|
    ensures s.index.posted[i].ticket !in s.index.given
  {
    var u := s.index.posted[i].ticket;
    SumHas(s.index.posted, i, PostedTicket);
    HandedOverOnce(s, u);
    assert HeldByTransport(s.index, u) == HandedOver(s, u);
  }

  /** The log survives as long as no message is given twice to one receive. */
  lemma LogSurvives(s: State, s': State, t: nat, m: Message)
    requires LogRight(s) && t !in s.index.given && s'.log == s.log
    requires s'.index.given == s.index.given[t := m]
    ensures LogRight(s')
  {
  }

  lemma CompletionRight(s: State, i: nat)
    requires Typed(s) && GivenMatch(s) && i < |s.ops| && Ready(s, s.ops[i])
    ensures var c := Completion(Finished(s, s.ops[i]), MessageOf(s, s.ops[i]));
            && c.request.completed
            && (c.request.body.SendBody? || c.request.body.RecvBody?)
            && (c.message.Some? <==> c.request.body.RecvBody?)
            && (c.message.Some? ==>
                  && c.request.ticket in s.index.given && s.index.given[c.request.ticket] == c.message.value
                  && TagMatches(c.message.value.tag, c.request.body.want)
                  && c.request.fields == DecodeTag(c.message.value.tag))
  {
    hide TagMatches, DecodeTag, Exactly;
    var r := s.ops[i];
    assert r in s.ops;
    if r.kind == ProbeKind {
      ExactlyMeaning(s.index.given[r.ticket].tag, r.body.want.tag);
    }
  }

  lemma CompleteLog(s: State, i: nat)
    requires Typed(s) && GivenMatch(s) && LogRight(s) && i < |s.ops| && Ready(s, s.ops[i])
    ensures LogRight(DoComplete(s, i))
  {
    hide TagMatches, DecodeTag, Typed, GivenMatch;
    CompletionRight(s, i);
  }

  lemma LogRightKept(s: State, step: Step)
    requires Enabled(s, step) && WaitingOrGiven(s) && TicketsConserved(s) && Typed(s) && GivenMatch(s) && LogRight(s)
    ensures LogRight(Apply(s, step))
  {
    hide DoComplete, DoPostNext, TagMatches, DecodeTag, TicketsConserved, WaitingOrGiven, GivenMatch, Typed;
    match step
    case Arrival(m) => ArrivalLog(s, m);
    case SubmitSend =>
    case PostNext => PostNextLog(s);
    case Complete(i) => CompleteLog(s, i);
    case _ => OthersQuiet(s, step);
  }

  lemma ArrivalLog(s: State, m: Message)
    requires LogRight(s) && WaitingOrGiven(s) && TicketsConserved(s)
    ensures LogRight(DoArrival(s, m))
  {
    hide TagMatches, DecodeTag;
    var i := FirstTaker(s.index.posted, m);
    if i < |s.index.posted| {
      PostedNotGiven(s, i);
      LogSurvives(s, DoArrival(s, m), s.index.posted[i].ticket, m);
    }
  }

  lemma PostNextLog(s: State)
    requires LogRight(s) && WaitingOrGiven(s) && TicketsConserved(s) && Enabled(s, PostNext)
    ensures LogRight(DoPostNext(s))
  {
    hide TagMatches, DecodeTag, Post, Matched, HasMatch;
    HeadNotHandedOver(s);
  }
}
