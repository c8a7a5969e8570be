/** What every step of the engine keeps: request nodes, submissions and
    messages are each in exactly one place. */
module Conservation {
  import opened Protocol
  import opened Sequences
  import opened Matching
  import opened Engine

  ghost function NodeOf(r: Request): multiset<nat> { multiset{r.node} }

  ghost function TicketOf(r: Request): multiset<nat> { multiset{r.ticket} }

  ghost function LogTicket(c: Completion): multiset<nat> { multiset{c.request.ticket} }

  // ----- request nodes -----

  ghost function FreeCount(p: Pools, n: nat): nat {
    multiset(p.send)[n] + multiset(p.recv)[n] + multiset(p.probe)[n]
  }

  /** In how many places node n is. */
  ghost function NodeCount(s: State, n: nat): nat {
    FreeCount(s.free, n) + Sum(s.sendQ, NodeOf)[n] + Sum(s.recvQ, NodeOf)[n] + Sum(s.batch, NodeOf)[n]
    + Sum(s.ops, NodeOf)[n] + Sum(s.user, NodeOf)[n]
  }

  /** Each allocated node is in exactly one place. */
  ghost predicate NodesConserved(s: State) {
    forall n: nat :: NodeCount(s, n) == if n < |s.home| then 1 else 0
  }

  // ----- submissions -----

  /** How often submission t is waiting, in flight or completed. */
  ghost function TicketCount(s: State, t: nat): nat {
    Sum(s.sendQ, TicketOf)[t] + Sum(s.recvQ, TicketOf)[t] + Sum(s.batch, TicketOf)[t]
    + Sum(s.ops, TicketOf)[t] + Sum(s.log, LogTicket)[t]
  }

  /** Each submission is in exactly one queue, in flight, or completed once. */
  ghost predicate TicketsConserved(s: State) {
    forall t: nat :: TicketCount(s, t) == if t < s.tickets then 1 else 0
  }

  // ----- the pools nodes return to -----

  ghost predicate AtHome(home: seq<Kind>, q: seq<Request>) {
    forall r | r in q :: r.node < |home| && home[r.node] == r.kind
  }

  ghost predicate PoolAtHome(home: seq<Kind>, f: seq<nat>, k: Kind) {
    forall n | n in f :: n < |home| && home[n] == k
  }

  ghost predicate FreeAtHome(home: seq<Kind>, p: Pools) {
    forall k :: PoolAtHome(home, FreeOf(p, k), k)
  }

  /** A request carries the kind of the pool its node came from, and a free
      node is in that pool. */
  ghost predicate AllAtHome(s: State) {
    && FreeAtHome(s.home, s.free)
    && AtHome(s.home, s.sendQ) && AtHome(s.home, s.recvQ) && AtHome(s.home, s.batch)
    && AtHome(s.home, s.ops) && AtHome(s.home, s.user)
  }

  lemma PoolChanged(p: Pools, k: Kind, f: seq<nat>, n: nat)
    ensures FreeCount(WithFree(p, k, f), n) + multiset(FreeOf(p, k))[n] == FreeCount(p, n) + multiset(f)[n]
  {
  }

  /** Allocating a node takes it out of its pool, or adds one to the universe. */
  lemma NewNode(s: State, k: Kind, n: nat)
    ensures var s1 := AfterNew(s, k);
            FreeCount(s1.free, n) + multiset{NodeFor(s, k)}[n] == FreeCount(s.free, n)
              + (if |s.home| <= n < |s1.home| then 1 else 0)
  {
    var f := FreeOf(s.free, k);
    if f != [] {
      assert f == [f[0]] + f[1..];
      PoolChanged(s.free, k, f[1..], n);
    }
  }

  // ----- each action moves one node and one submission -----

  /** What the step from s to s' does to the counts of node n and submission t. */
  ghost predicate Balanced(s: State, s': State, n: nat, t: nat) {
    && |s.home| <= |s'.home| && s.tickets <= s'.tickets
    && NodeCount(s', n) == NodeCount(s, n) + (if |s.home| <= n < |s'.home| then 1 else 0)
    && TicketCount(s', t) == TicketCount(s, t) + (if s.tickets <= t < s'.tickets then 1 else 0)
  }

  lemma SendBalanced(s: State, channel: bv32, me: bv32, dest: bv32, tag: bv32, n: nat, t: nat)
    ensures Balanced(s, DoSend(s, channel, me, dest, tag), n, t)
  {
    hide EncodeTag, Sum, FreeCount, WithFree, FreeOf, NodeFor;
    var s' := DoSend(s, channel, me, dest, tag);
    NewNode(s, SendKind, n);
    SumAppend(s.sendQ, Last(s'.sendQ), NodeOf);
    SumAppend(s.sendQ, Last(s'.sendQ), TicketOf);
  }

  lemma RecvBalanced(s: State, want: Selector, left: Fields, n: nat, t: nat)
    ensures Balanced(s, DoRecv(s, want, left), n, t)
  {
    hide Sum, FreeCount, WithFree, FreeOf, NodeFor;
    var s' := DoRecv(s, want, left);
    NewNode(s, RecvKind, n);
    SumAppend(s.recvQ, Last(s'.recvQ), NodeOf);
    SumAppend(s.recvQ, Last(s'.recvQ), TicketOf);
  }

  lemma ProbeBalanced(s: State, channel: bv32, want: Selector, remove: bool, left: Fields, n: nat, t: nat)
    requires Shaped(s.index) && channel < 0x100
    ensures Balanced(s, DoProbe(s, channel, want, remove, left), n, t)
  {
    hide DecodeTag, Take, HasMatch, Probed, Sum, FreeCount, WithFree, FreeOf, NodeFor;
    var s' := DoProbe(s, channel, want, remove, left);
    NewNode(s, ProbeKind, n);
    SumAppend(s.user, Last(s'.user), NodeOf);
  }

  lemma RequestRecvBalanced(s: State, i: nat, n: nat, t: nat)
    requires i < |s.user| && s.user[i].body.ProbeBody?
    ensures Balanced(s, DoRequestRecv(s, i), n, t)
  {
    hide Sum, FreeCount, Without;
    var s' := DoRequestRecv(s, i);
    SumWithout(s.user, i, NodeOf);
    SumAppend(s.recvQ, Last(s'.recvQ), NodeOf);
    SumAppend(s.recvQ, Last(s'.recvQ), TicketOf);
  }

  lemma ReleaseBalanced(s: State, i: nat, n: nat, t: nat)
    requires i < |s.user|
    ensures Balanced(s, DoRelease(s, i), n, t)
  {
    hide Sum, FreeCount, Without, WithFree, FreeOf;
    var r := s.user[i];
    SumWithout(s.user, i, NodeOf);
    PoolChanged(s.free, r.kind, [r.node] + FreeOf(s.free, r.kind), n);
  }

  lemma SubmitSendBalanced(s: State, n: nat, t: nat)
    requires s.sendQ != []
    ensures Balanced(s, DoSubmitSend(s), n, t)
  {
    hide Sum, FreeCount, DropLast;
    SumDropLast(s.sendQ, NodeOf);
    SumDropLast(s.sendQ, TicketOf);
    SumAppend(s.ops, Last(s.sendQ), NodeOf);
    SumAppend(s.ops, Last(s.sendQ), TicketOf);
  }

  lemma DrainBalanced(s: State, n: nat, t: nat)
    requires s.batch == []
    ensures Balanced(s, DoDrain(s), n, t)
  {
  }

  lemma PostNextBalanced(s: State, n: nat, t: nat)
    requires Enabled(s, PostNext)
    ensures Balanced(s, DoPostNext(s), n, t)
  {
    hide DecodeTag, Post, HasMatch, Sum, FreeCount;
    var s' := DoPostNext(s);
    SumTail(s.batch, NodeOf);
    SumTail(s.batch, TicketOf);
    SumAppend(s.ops, Last(s'.ops), NodeOf);
    SumAppend(s.ops, Last(s'.ops), TicketOf);
  }

  lemma CompleteBalanced(s: State, i: nat, n: nat, t: nat)
    requires i < |s.ops|
    ensures Balanced(s, DoComplete(s, i), n, t)
  {
    hide DecodeTag, Sum, FreeCount, SwapRemove, MessageOf;
    var s' := DoComplete(s, i);
    SumSwapRemove(s.ops, i, NodeOf);
    SumSwapRemove(s.ops, i, TicketOf);
    SumAppend(s.user, Last(s'.user), NodeOf);
    SumAppend(s.log, Last(s'.log), LogTicket);
  }

  lemma StepBalanced(s: State, step: Step, n: nat, t: nat)
    requires Enabled(s, step)
    ensures Balanced(s, Apply(s, step), n, t)
  {
    hide DoSend, DoRecv, DoProbe, DoRequestRecv, DoRelease, DoSubmitSend, DoDrain, DoPostNext, DoComplete,
      Pull, Arrive, Sum, FreeCount;
    match step
    case Send(channel, me, dest, tag) => SendBalanced(s, channel, me, dest, tag, n, t);
    case Recv(want, left) => RecvBalanced(s, want, left, n, t);
    case Probe(channel, want, remove, left) => ProbeBalanced(s, channel, want, remove, left, n, t);
    case RequestRecv(i) => RequestRecvBalanced(s, i, n, t);
    case Release(i) => ReleaseBalanced(s, i, n, t);
    case SubmitSend => SubmitSendBalanced(s, n, t);
    case Drain => DrainBalanced(s, n, t);
    case PostNext => PostNextBalanced(s, n, t);
    case Complete(i) => CompleteBalanced(s, i, n, t);
    case _ =>
  }

  lemma NodesKept(s: State, step: Step)
    requires Enabled(s, step) && NodesConserved(s)
    ensures NodesConserved(Apply(s, step))
  {
    hide Apply, Enabled, NodeCount, TicketCount;
    forall n: nat
      ensures NodeCount(Apply(s, step), n) == if n < |Apply(s, step).home| then 1 else 0
    {
      StepBalanced(s, step, n, 0);
    }
  }

  lemma TicketsKept(s: State, step: Step)
    requires Enabled(s, step) && TicketsConserved(s)
    ensures TicketsConserved(Apply(s, step))
  {
    hide Apply, Enabled, NodeCount, TicketCount;
    forall t: nat
      ensures TicketCount(Apply(s, step), t) == if t < Apply(s, step).tickets then 1 else 0
    {
      StepBalanced(s, step, 0, t);
    }
  }

  lemma NewNodeAtHome(s: State, k: Kind)
    requires AllAtHome(s)
    ensures AllAtHome(AfterNew(s, k))
    ensures NodeFor(s, k) < |AfterNew(s, k).home| && AfterNew(s, k).home[NodeFor(s, k)] == k
  {
    var f, s1 := FreeOf(s.free, k), AfterNew(s, k);
    assert PoolAtHome(s.home, f, k);
    forall k'
      ensures PoolAtHome(s1.home, FreeOf(s1.free, k'), k')
    {
      assert PoolAtHome(s.home, FreeOf(s.free, k'), k');
      assert forall n | n in FreeOf(s1.free, k') :: n in FreeOf(s.free, k');
    }
    if f != [] {
      assert f[0] in f;
    }
  }

  lemma HomeKeptByUser(s: State, step: Step)
    requires Enabled(s, step) && AllAtHome(s)
    requires step.Send? || step.Recv? || step.Probe? || step.RequestRecv? || step.Release?
    ensures AllAtHome(Apply(s, step))
  {
    hide DecodeTag, EncodeTag, Take, HasMatch, Probed, FreeOf, WithFree, NodeFor, AfterNew;
    match step
    case Send(_, _, _, _) => NewNodeAtHome(s, SendKind);
    case Recv(_, _) => NewNodeAtHome(s, RecvKind);
    case Probe(_, _, _, _) => NewNodeAtHome(s, ProbeKind);
    case RequestRecv(i) => WithoutMembers(s.user, i);
    case Release(i) => WithoutMembers(s.user, i);
  }

  lemma HomeKeptByWorker(s: State, step: Step)
    requires Enabled(s, step) && AllAtHome(s)
    requires !(step.Send? || step.Recv? || step.Probe? || step.RequestRecv? || step.Release?)
    ensures AllAtHome(Apply(s, step))
  {
    hide DecodeTag, Take, Post, Pull, HasMatch;
    match step
    case SubmitSend => assert Last(s.sendQ) in s.sendQ;
    case PostNext => assert s.batch[0] in s.batch;
    case Complete(i) => SwapRemoveMembers(s.ops, i);
    case _ =>
  }

  lemma HomeKept(s: State, step: Step)
    requires Enabled(s, step) && AllAtHome(s)
    ensures AllAtHome(Apply(s, step))
  {
    hide Apply, Enabled, AllAtHome;
    if step.Send? || step.Recv? || step.Probe? || step.RequestRecv? || step.Release? {
      HomeKeptByUser(s, step);
    } else {
      HomeKeptByWorker(s, step);
    }
  }
}
