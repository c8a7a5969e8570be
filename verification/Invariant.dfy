/** The invariant of the engine: it holds at the start and every step keeps it. */
module Invariant {
  import opened Protocol
  import opened Sequences
  import opened Matching
  import opened Engine
  import opened Conservation
  import opened Delivery
  import opened Messages

  ghost function KindOf(r: Request): multiset<Kind> { multiset{r.kind} }

  /** send_count is the number of sends in flight, and the window bounds it. */
  ghost predicate WindowExact(s: State) {
    s.sendCount == Sum(s.ops, KindOf)[SendKind] && s.sendCount <= SEND_WINDOW
  }

  ghost predicate Inv(s: State) {
    && Typed(s)
    && NodesConserved(s) && AllAtHome(s)
    && TicketsConserved(s) && WaitingOrGiven(s)
    && GivenMatch(s) && LogRight(s)
    && MessagesConserved(s) && Numbered(s)
    && WindowExact(s)
  }

  lemma InvWindow(s: State)
    requires Inv(s)
    ensures WindowExact(s)
  {
  }

  // ----- window -----

  lemma WindowKept(s: State, step: Step)
    requires Enabled(s, step) && Typed(s) && WindowExact(s)
    ensures WindowExact(Apply(s, step))
  {
    hide Sum, DoSubmitSend, DoPostNext, DoComplete, Typed;
    match step
    case Arrival(_) =>
    case SubmitSend => SubmitSendWindow(s);
    case PostNext => PostNextWindow(s);
    case Complete(i) => CompleteWindow(s, i);
    case _ => OthersQuiet(s, step);
  }

  lemma SubmitSendWindow(s: State)
    requires Typed(s) && WindowExact(s) && s.sendQ != [] && s.sendCount < SEND_WINDOW
    ensures WindowExact(DoSubmitSend(s))
  {
    hide Sum;
    assert Last(s.sendQ) in s.sendQ;
    SumAppend(s.ops, Last(s.sendQ), KindOf);
  }

  /** A receive takes no room in the window, whatever pool its node is from. */
  lemma PostNextWindow(s: State)
    requires Typed(s) && WindowExact(s) && Enabled(s, PostNext)
    ensures WindowExact(DoPostNext(s))
  {
    hide Sum, DecodeTag, HasMatch, Post, Matched;
    assert s.batch[0] in s.batch;
    MatchedSomeRecv(s.batch[0], s.index);
    SumAppend(s.ops, Last(DoPostNext(s).ops), KindOf);
  }

  lemma CompleteWindow(s: State, i: nat)
    requires WindowExact(s) && i < |s.ops|
    ensures WindowExact(DoComplete(s, i))
  {
    hide Sum, SwapRemove, DecodeTag;
    SumSwapRemove(s.ops, i, KindOf);
  }

  // ----- one step -----

  lemma NumberedKept(s: State, step: Step)
    requires Enabled(s, step) && Numbered(s)
    ensures Numbered(Apply(s, step)) && s.arrived <= Apply(s, step).arrived
  {
    hide Pull, Take, HasMatch, FreeOf, WithFree, DecodeTag, Matched, Post;
  }

  lemma InvKept(s: State, step: Step)
    requires Enabled(s, step) && Inv(s)
    ensures Inv(Apply(s, step))
  {
    hide Apply, Enabled, Typed, NodesConserved, AllAtHome, TicketsConserved, WaitingOrGiven,
      GivenMatch, LogRight, MessagesConserved, Numbered, WindowExact;
    TypedKept(s, step);
    NodesKept(s, step);
    HomeKept(s, step);
    TicketsKept(s, step);
    WaitingOrGivenKept(s, step);
    GivenMatchKept(s, step);
    LogRightKept(s, step);
    MessagesKept(s, step);
    NumberedKept(s, step);
    WindowKept(s, step);
  }

  // ----- the start -----

  lemma EmptyInv()
    ensures Inv(Empty())
  {
    hide Sum;
    var s := Empty();
    NothingSummed(NodeOf);
    NothingSummed(TicketOf);
    NothingSummed(LogTicket);
    NothingSummed(RecvTicket);
    NothingSummed(LogRecvTicket);
    NothingSummed(PostedTicket);
    NothingSummed(HeldBy);
    NothingSummed(KindOf);
    EmptyLists(s.index.lists);
    forall m
      ensures MessageCount(s, m) == multiset(s.arrived)[m]
    {
    }
  }

  lemma NothingSummed<T, U>(f: T -> multiset<U>)
    ensures Sum([], f) == multiset{}
  {
  }

  lemma {:induction false} EmptyLists(lists: seq<seq<Message>>)
    requires forall l | l in lists :: l == []
    ensures Sum(lists, Contents) == multiset{}
  {
    if lists != [] {
      assert lists[0] in lists && forall l | l in lists[1..] :: l in lists;
      EmptyLists(lists[1..]);
    }
  }

  lemma {:induction false} PreallocateInv(s: State, k: Kind, n: nat)
    requires Inv(s)
    ensures Inv(Preallocate(s, k, n))
  {
    if n > 0 {
      PreallocateInv(s, k, n - 1);
      AllocateInv(Preallocate(s, k, n - 1), k);
    }
  }

  lemma AllocateInv(s: State, k: Kind)
    requires Inv(s)
    ensures Inv(s.(home := s.home + [k], free := WithFree(s.free, k, [|s.home|] + FreeOf(s.free, k))))
  {
    hide Typed, TicketsConserved, WaitingOrGiven, GivenMatch, LogRight, MessagesConserved, FreeOf, WithFree, Sum;
    var f := [|s.home|] + FreeOf(s.free, k);
    var s' := s.(home := s.home + [k], free := WithFree(s.free, k, f));
    forall n: nat
      ensures NodeCount(s', n) == if n < |s'.home| then 1 else 0
    {
      PoolChanged(s.free, k, f, n);
      assert NodeCount(s, n) == if n < |s.home| then 1 else 0;
    }
    forall k'
      ensures PoolAtHome(s'.home, FreeOf(s'.free, k'), k')
    {
      assert PoolAtHome(s.home, FreeOf(s.free, k'), k');
    }
    SameTyped(s, s');
    SameDelivery(s, s');
    SameCounts(s, s');
  }

  lemma SameTyped(s: State, s': State)
    requires Typed(s) && s' == s.(home := s'.home, free := s'.free)
    ensures Typed(s')
  {
  }

  lemma SameDelivery(s: State, s': State)
    requires GivenMatch(s) && LogRight(s) && s' == s.(home := s'.home, free := s'.free)
    ensures GivenMatch(s') && LogRight(s')
  {
  }

  lemma SameCounts(s: State, s': State)
    requires TicketsConserved(s) && WaitingOrGiven(s) && MessagesConserved(s)
    requires s' == s.(home := s'.home, free := s'.free)
    ensures TicketsConserved(s') && WaitingOrGiven(s') && MessagesConserved(s')
  {
    hide Sum, GivenCount;
    assert forall t: nat :: TicketCount(s', t) == TicketCount(s, t);
    assert forall t: nat :: HandedOver(s', t) == HandedOver(s, t);
    assert forall m :: MessageCount(s', m) == MessageCount(s, m);
  }

  lemma StartInv(n: nat)
    ensures Inv(Start(n))
  {
    hide Inv, Preallocate;
    EmptyInv();
    PreallocateInv(Empty(), SendKind, n);
    PreallocateInv(Preallocate(Empty(), SendKind, n), RecvKind, n);
    PreallocateInv(Preallocate(Preallocate(Empty(), SendKind, n), RecvKind, n), ProbeKind, n);
  }

  /** The start differs from the empty state in its pools only. */
  lemma StartBlank(n: nat)
    ensures Start(n) == Empty().(home := Start(n).home, free := Start(n).free)
  {
    PoolOnly(Empty(), SendKind, n);
    PoolOnly(Preallocate(Empty(), SendKind, n), RecvKind, n);
    PoolOnly(Preallocate(Preallocate(Empty(), SendKind, n), RecvKind, n), ProbeKind, n);
  }

  lemma {:induction false} PoolOnly(s: State, k: Kind, n: nat)
    ensures var s' := Preallocate(s, k, n); s' == s.(home := s'.home, free := s'.free)
  {
    if n > 0 {
      PoolOnly(s, k, n - 1);
    }
  }

  // ----- runs -----

  lemma {:induction false} RunInv(s: State, steps: seq<Step>)
    requires Inv(s) && CanRun(s, steps)
    ensures Inv(Run(s, steps))
    decreases |steps|
  {
    hide Inv, Apply, Enabled;
    if steps != [] {
      InvKept(s, steps[0]);
      RunInv(Apply(s, steps[0]), steps[1..]);
    }
  }
}
