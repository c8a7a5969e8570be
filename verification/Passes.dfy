/** The worker's passes over its queues (clh.c:182-221, 260-309, 326-366) as
    functions of the state, and what a whole pass achieves. Each pass is a run
    of engine steps. */
module Passes {
  import opened Protocol
  import opened Sequences
  import opened Matching
  import opened Engine
  import opened Delivery
  import opened Refinement

  // ----- process_ops_queue_ -----

  /** The scan from position idx, `done` being the submissions the transport
      reports as finished. A finished operation is swapped out and the position
      looked at again. */
  function Scan(s: State, done: set<nat>, idx: nat): State
    decreases |s.ops| - idx
  {
    if idx >= |s.ops| then s
    else if s.ops[idx].ticket in done then Scan(DoComplete(s, idx), done, idx)
    else Scan(s, done, idx + 1)
  }

  /** The operations the scan tests, in the order it tests them. */
  function Tested(ops: seq<Request>, done: set<nat>, idx: nat): seq<Request>
    decreases |ops| - idx
  {
    if idx >= |ops| then []
    else if ops[idx].ticket in done then [ops[idx]] + Tested(SwapRemove(ops, idx), done, idx)
    else [ops[idx]] + Tested(ops, done, idx + 1)
  }

  /** The operations the scan completes, in that order. */
  function Completing(ops: seq<Request>, done: set<nat>, idx: nat): seq<Request>
    decreases |ops| - idx
  {
    if idx >= |ops| then []
    else if ops[idx].ticket in done then [ops[idx]] + Completing(SwapRemove(ops, idx), done, idx)
    else Completing(ops, done, idx + 1)
  }

  lemma SwapRemoveSplit(ops: seq<Request>, idx: nat)
    requires idx < |ops|
    ensures var o := SwapRemove(ops, idx);
            && |o| == |ops| - 1 && o[..idx] == ops[..idx]
            && multiset(ops[idx..]) == multiset{ops[idx]} + multiset(o[idx..])
  {
    var o, n := SwapRemove(ops, idx), |ops| - 1;
    assert ops[idx..] == [ops[idx]] + ops[idx + 1..];
    if idx < n {
      assert ops[idx + 1..] == ops[idx + 1..n] + [ops[n]];
      assert o[idx..] == [ops[n]] + ops[idx + 1..n];
    } else {
      assert o[idx..] == [] && ops[idx + 1..] == [];
    }
  }

  lemma OneFurther(ops: seq<Request>, idx: nat)
    requires idx < |ops|
    ensures multiset(ops[idx..]) == multiset{ops[idx]} + multiset(ops[idx + 1..])
    ensures multiset(ops[..idx + 1]) == multiset(ops[..idx]) + multiset{ops[idx]}
  {
    assert ops[idx..] == [ops[idx]] + ops[idx + 1..];
    assert ops[..idx + 1] == ops[..idx] + [ops[idx]];
  }

  lemma HeadBag(r: Request, q: seq<Request>)
    ensures multiset([r] + q) == multiset{r} + multiset(q)
  {
  }

  /** Every operation from idx on is tested exactly once, wherever the swaps
      put it. */
  lemma {:induction false} TestedOnce(ops: seq<Request>, done: set<nat>, idx: nat)
    requires idx <= |ops|
    ensures multiset(Tested(ops, done, idx)) == multiset(ops[idx..])
    decreases |ops| - idx
  {
    hide SwapRemove;
    if idx < |ops| {
      if ops[idx].ticket in done {
        SwapRemoveSplit(ops, idx);
        TestedOnce(SwapRemove(ops, idx), done, idx);
        HeadBag(ops[idx], Tested(SwapRemove(ops, idx), done, idx));
      } else {
        TestedOnce(ops, done, idx + 1);
        HeadBag(ops[idx], Tested(ops, done, idx + 1));
        OneFurther(ops, idx);
      }
    }
  }

  /** The finished ones are completed, each as often as it was there. */
  lemma {:induction false} CompletesTheFinished(ops: seq<Request>, done: set<nat>, idx: nat, r: Request)
    requires idx <= |ops|
    ensures multiset(Completing(ops, done, idx))[r] == if r.ticket in done then multiset(ops[idx..])[r] else 0
    decreases |ops| - idx
  {
    if idx < |ops| {
      if ops[idx].ticket in done {
        SwapRemoveSplit(ops, idx);
        CompletesTheFinished(SwapRemove(ops, idx), done, idx, r);
      } else {
        CompletesTheFinished(ops, done, idx + 1, r);
        assert ops[idx..] == [ops[idx]] + ops[idx + 1..];
      }
    }
  }

  function CompletionsOf(s: State, q: seq<Request>): seq<Completion> {
    seq(|q|, i requires 0 <= i < |q| => Completion(Finished(s, q[i]), MessageOf(s, q[i])))
  }

  /** The scan changes nothing but the operations, the completed requests, the
      counter and the log, and the log grows by the completed operations. */
  lemma {:induction false} ScanCompletes(s: State, done: set<nat>, idx: nat)
    ensures var s' := Scan(s, done, idx);
            && s' == s.(ops := s'.ops, user := s'.user, sendCount := s'.sendCount, log := s'.log)
            && s'.log == s.log + CompletionsOf(s, Completing(s.ops, done, idx))
    decreases |s.ops| - idx
  {
    hide DecodeTag;
    if idx < |s.ops| {
      if s.ops[idx].ticket in done {
        var s1 := DoComplete(s, idx);
        ScanCompletes(s1, done, idx);
        var rest := Completing(s1.ops, done, idx);
        assert forall r :: Finished(s1, r) == Finished(s, r) && MessageOf(s1, r) == MessageOf(s, r);
        assert CompletionsOf(s, [s.ops[idx]] + rest)
            == [Completion(Finished(s, s.ops[idx]), MessageOf(s, s.ops[idx]))] + CompletionsOf(s1, rest);
      } else {
        ScanCompletes(s, done, idx + 1);
      }
    }
  }

  /** The operations in progress stay, and only they. */
  lemma {:induction false} ScanLeaves(s: State, done: set<nat>, idx: nat, r: Request)
    requires idx <= |s.ops|
    ensures multiset(Scan(s, done, idx).ops)[r]
            == multiset(s.ops[..idx])[r] + (if r.ticket in done then 0 else multiset(s.ops[idx..])[r])
    decreases |s.ops| - idx
  {
    hide DecodeTag, SwapRemove, Finished, MessageOf;
    if idx < |s.ops| {
      if s.ops[idx].ticket in done {
        SwapRemoveSplit(s.ops, idx);
        ScanLeaves(DoComplete(s, idx), done, idx, r);
      } else {
        ScanLeaves(s, done, idx + 1, r);
        OneFurther(s.ops, idx);
      }
    } else {
      assert s.ops[..idx] == s.ops;
    }
  }

  /** The scan comes across an operation the transport reports as failed. */
  predicate MeetsBroken(ops: seq<Request>, done: set<nat>, broken: set<nat>, idx: nat)
    decreases |ops| - idx
  {
    idx < |ops| &&
    if ops[idx].ticket in done then MeetsBroken(SwapRemove(ops, idx), done, broken, idx)
    else ops[idx].ticket in broken || MeetsBroken(ops, done, broken, idx + 1)
  }

  /** It does exactly when there is one. */
  lemma {:induction false} MeetsBrokenExact(ops: seq<Request>, done: set<nat>, broken: set<nat>, idx: nat)
    requires idx <= |ops|
    ensures MeetsBroken(ops, done, broken, idx)
            <==> exists r :: r in multiset(ops[idx..]) && r.ticket in broken && r.ticket !in done
    decreases |ops| - idx
  {
    if idx < |ops| {
      if ops[idx].ticket in done {
        SwapRemoveSplit(ops, idx);
        MeetsBrokenExact(SwapRemove(ops, idx), done, broken, idx);
      } else {
        MeetsBrokenExact(ops, done, broken, idx + 1);
        assert ops[idx..] == [ops[idx]] + ops[idx + 1..];
        assert multiset(ops[idx..]) == multiset{ops[idx]} + multiset(ops[idx + 1..]);
      }
    }
  }

  // ----- process_send_queue_ -----

  /** Submit from the tail until the queue is empty or the window is full. */
  function SendPass(s: State): (r: State)
    ensures r.sendQ == [] || r.sendCount >= SEND_WINDOW
    decreases |s.sendQ|
  {
    if s.sendQ == [] || s.sendCount >= SEND_WINDOW then s else SendPass(DoSubmitSend(s))
  }

  /** What a call of ucp_tag_send_nbx is given. */
  datatype Outgoing = Outgoing(dest: bv32, tag: bv64)

  /** The transport call for a request in the send queue; there is none for a
      request that is not a send. */
  function Sending(r: Request): seq<Outgoing> {
    match r.body
    case SendBody(tag, dest) => [Outgoing(dest, tag)]
    case _ => []
  }

  function Sendings(q: seq<Request>): seq<Outgoing> {
    if q == [] then [] else Sending(q[0]) + Sendings(q[1..])
  }

  ghost predicate OnlySends(q: seq<Request>) {
    forall r | r in q :: r.body.SendBody?
  }

  /** The transport calls of the pass. */
  function Going(s: State): seq<Outgoing>
    decreases |s.sendQ|
  {
    if s.sendQ == [] || s.sendCount >= SEND_WINDOW then [] else Sending(Last(s.sendQ)) + Going(DoSubmitSend(s))
  }

  lemma OneGoing(s: State)
    requires OnlySends(s.sendQ) && s.sendQ != [] && s.sendCount < SEND_WINDOW
    ensures Last(s.sendQ).body.SendBody? && OnlySends(DoSubmitSend(s).sendQ)
    ensures SendPass(s) == SendPass(DoSubmitSend(s))
    ensures Going(s) == Sending(Last(s.sendQ)) + Going(DoSubmitSend(s))
  {
    assert Last(s.sendQ) in s.sendQ;
  }

  /** The calls are those for the operations that the pass adds, in order. */
  lemma {:induction false} GoingIs(s: State)
    ensures s.ops <= SendPass(s).ops && Going(s) == Sendings(SendPass(s).ops[|s.ops|..])
    decreases |s.sendQ|
  {
    if s.sendQ != [] && s.sendCount < SEND_WINDOW {
      GoingIs(DoSubmitSend(s));
      var ops := SendPass(s).ops;
      assert ops[|s.ops|..] == [Last(s.sendQ)] + ops[|s.ops| + 1..];
    }
  }

  // ----- process_recv_queue_ -----

  /** Every queued receive names one of the lists: recv_list is not indexed out
      of its bounds (clh.c:287). */
  ghost predicate InBounds(s: State) {
    (forall r | r in s.recvQ :: r.fields.channel < 0x100) && (forall r | r in s.batch :: r.fields.channel < 0x100)
  }

  /** It can only be lost by a receive on a node that holds no such channel. */
  lemma InBoundsKept(s: State, step: Step)
    requires Enabled(s, step) && Typed(s) && InBounds(s)
    ensures InBounds(Apply(s, step)) <==> (step.Recv? ==> step.left.channel < 0x100)
  {
    hide DecodeTag, EncodeTag, HasMatch, FirstMatch, Probed, Take, FreeOf, WithFree, NodeFor, Post, Matched, Pull,
      OneChannel, Filed, SomeRecv, QueuedRecv, QueuedSend, AfterNew;
    match step
    case Recv(_, _) => assert Last(Apply(s, step).recvQ) in Apply(s, step).recvQ;
    case RequestRecv(i) =>
      assert s.user[i] in s.user;
      SmallChannel(s.user[i].body.senderTag);
    case _ =>
  }

  lemma CanPost(s: State)
    requires Typed(s) && InBounds(s) && s.batch != [] && !s.exited
    ensures Enabled(s, PostNext)
  {
    assert s.batch[0] in s.batch;
  }

  lemma PostNextInBounds(s: State)
    requires Enabled(s, PostNext) && InBounds(s)
    ensures InBounds(DoPostNext(s))
  {
    hide Post, Matched;
  }

  /** Process the detached chain to its end. */
  function PostAll(s: State): State
    requires Typed(s) && InBounds(s) && !s.exited
    decreases |s.batch|
  {
    if s.batch == [] then s
    else
      CanPost(s);
      PostNextTyped(s);
      PostNextInBounds(s);
      PostAll(DoPostNext(s))
  }

  function RecvPass(s: State): State
    requires Typed(s) && InBounds(s) && !s.exited && s.batch == []
  {
    PostAll(DoDrain(s))
  }

  // ----- a whole turn -----

  /** probe_incomming_messages_; CONF_PROBE_THRESH is 1. */
  function PullOnce(s: State): State
    requires Shaped(s.index)
  {
    if s.index.unexpected == [] then s else s.(index := Pull(s.index))
  }

  ghost predicate Between(s: State) {
    Typed(s) && InBounds(s) && !s.exited && s.batch == []
  }

  lemma PullBetween(s: State)
    requires Between(s)
    ensures Between(PullOnce(s)) && PullOnce(s) == s.(index := PullOnce(s).index)
    ensures s.index.unexpected != [] ==> Enabled(s, PullOne) && PullOnce(s) == Apply(s, PullOne)
  {
    hide Pull, Typed;
    if s.index.unexpected != [] {
      TypedShaped(s);
      TypedKept(s, PullOne);
    }
  }

  lemma TypedShaped(s: State)
    requires Typed(s)
    ensures Shaped(s.index)
  {
  }

  lemma {:induction false} SendBetween(s: State)
    requires Between(s)
    ensures Between(SendPass(s)) && SendPass(s).recvQ == s.recvQ
    decreases |s.sendQ|
  {
    hide Typed;
    if s.sendQ != [] && s.sendCount < SEND_WINDOW {
      TypedKept(s, SubmitSend);
      SendBetween(DoSubmitSend(s));
    }
  }

  lemma DrainTyped(s: State)
    requires Between(s)
    ensures Typed(DoDrain(s)) && InBounds(DoDrain(s))
  {
  }

  lemma {:induction false} PostBetween(s: State)
    requires Typed(s) && InBounds(s) && !s.exited && s.recvQ == []
    ensures Between(PostAll(s)) && PostAll(s).recvQ == []
    decreases |s.batch|
  {
    hide Typed, InBounds, Post, Matched;
    if s.batch != [] {
      CanPost(s);
      PostNextTyped(s);
      PostNextInBounds(s);
      PostBetween(DoPostNext(s));
    }
  }

  lemma RecvBetween(s: State)
    requires Between(s)
    ensures Between(RecvPass(s)) && RecvPass(s).recvQ == []
  {
    DrainTyped(s);
    PostBetween(DoDrain(s));
  }

  /** A turn of the loop of run_ up to the progress of the transport. */
  function ServePass(s: State): State
    requires Between(s)
  {
    PullBetween(s);
    SendBetween(PullOnce(s));
    RecvPass(SendPass(PullOnce(s)))
  }

  lemma ServeBetween(s: State)
    requires Between(s)
    ensures Between(ServePass(s)) && ServePass(s).recvQ == []
  {
    PullBetween(s);
    SendBetween(PullOnce(s));
    RecvBetween(SendPass(PullOnce(s)));
  }

  /** Some operation with ticket t cannot be finished yet. */
  ghost predicate Blocked(s: State, t: nat) {
    exists r :: r in s.ops && r.ticket == t && !Ready(s, r)
  }

  /** What the transport finishes when it is about to finish `finish`. */
  ghost function Finishing(s: State, finish: set<nat>): set<nat> {
    set t | t in finish && !Blocked(s, t)
  }

  lemma FinishingReady(s: State, finish: set<nat>)
    ensures forall r | r in s.ops && r.ticket in Finishing(s, finish) :: Ready(s, r)
  {
  }

  lemma {:induction false} ScanTyped(s: State, done: set<nat>, idx: nat)
    requires Typed(s) && !s.exited
    requires forall r | r in s.ops && r.ticket in done :: Ready(s, r)
    ensures Typed(Scan(s, done, idx))
    decreases |s.ops| - idx
  {
    hide DecodeTag, Typed;
    if idx < |s.ops| {
      if s.ops[idx].ticket in done {
        assert s.ops[idx] in s.ops;
        SwapRemoveMembers(s.ops, idx);
        TypedKept(s, Complete(idx));
        ScanTyped(DoComplete(s, idx), done, idx);
      } else {
        ScanTyped(s, done, idx + 1);
      }
    }
  }

  lemma ScanBetween(s: State, done: set<nat>)
    requires Between(s)
    requires forall r | r in s.ops && r.ticket in done :: Ready(s, r)
    ensures Between(Scan(s, done, 0)) && Scan(s, done, 0).recvQ == s.recvQ
  {
    hide Typed, Ready, Scan;
    ScanTyped(s, done, 0);
    ScanKeeps(s, done);
  }

  /** A whole turn, in which the transport finishes what it can of `finish`. */
  ghost function TurnPass(s: State, finish: set<nat>): State
    requires Between(s)
  {
    var s1 := ServePass(s);
    Scan(s1, Finishing(s1, finish), 0)
  }

  /** None of the operations in progress after serving has failed. */
  ghost predicate Unbroken(s: State, finish: set<nat>, fail: set<nat>)
    requires Between(s)
  {
    var s1 := ServePass(s);
    forall r | r in s1.ops && r.ticket in fail :: r.ticket in Finishing(s1, finish)
  }

  // ----- passes are runs -----

  /** Some run leads from s to s'; if it is to be safe, a harmless one. */
  ghost predicate LeadsTo(s: State, s': State, safe: bool) {
    exists steps :: CanRun(s, steps) && Run(s, steps) == s' && (safe ==> HarmlessRun(s, steps))
  }

  lemma LeadsToSelf(s: State, safe: bool)
    ensures LeadsTo(s, s, safe)
  {
    assert CanRun(s, []) && Run(s, []) == s && HarmlessRun(s, []);
  }

  lemma StepThen(s: State, step: Step, s': State, safe: bool)
    requires Enabled(s, step) && LeadsTo(Apply(s, step), s', safe) && (safe ==> Harmless(s, step))
    ensures LeadsTo(s, s', safe)
  {
    hide Apply, Enabled, Harmless;
    var steps :| CanRun(Apply(s, step), steps) && Run(Apply(s, step), steps) == s'
                 && (safe ==> HarmlessRun(Apply(s, step), steps));
    var all := [step] + steps;
    assert all[0] == step && all[1..] == steps;
    assert CanRun(s, all) && Run(s, all) == s' && (safe ==> HarmlessRun(s, all));
  }

  lemma {:induction false} RunsJoin(s: State, a: seq<Step>, b: seq<Step>)
    requires CanRun(s, a) && CanRun(Run(s, a), b)
    ensures CanRun(s, a + b) && Run(s, a + b) == Run(Run(s, a), b)
    ensures HarmlessRun(s, a + b) <==> HarmlessRun(s, a) && HarmlessRun(Run(s, a), b)
    decreases |a|
  {
    hide Apply, Enabled, Harmless;
    if a == [] {
      assert a + b == b;
    } else {
      RunsJoin(Apply(s, a[0]), a[1..], b);
      assert (a + b)[0] == a[0] && (a + b)[1..] == a[1..] + b;
    }
  }

  lemma LeadsToJoin(s: State, s1: State, s2: State, safe: bool)
    requires LeadsTo(s, s1, safe) && LeadsTo(s1, s2, safe)
    ensures LeadsTo(s, s2, safe)
  {
    hide CanRun, Run, HarmlessRun;
    var a :| CanRun(s, a) && Run(s, a) == s1 && (safe ==> HarmlessRun(s, a));
    var b :| CanRun(s1, b) && Run(s1, b) == s2 && (safe ==> HarmlessRun(s1, b));
    RunsJoin(s, a, b);
    assert CanRun(s, a + b) && Run(s, a + b) == s2 && (safe ==> HarmlessRun(s, a + b));
  }

  lemma PullIsRun(s: State, safe: bool)
    requires Between(s)
    ensures LeadsTo(s, PullOnce(s), safe)
    ensures AllRight(s) ==> AllRight(PullOnce(s))
  {
    hide LeadsTo, Typed, InBounds, Pull;
    BetweenMeans(s);
    PullBetween(s);
    LeadsToSelf(PullOnce(s), safe);
    if s.index.unexpected != [] {
      StepThen(s, PullOne, PullOnce(s), safe);
    }
  }

  lemma {:induction false} SendPassIsRun(s: State, safe: bool)
    requires !s.exited
    ensures LeadsTo(s, SendPass(s), safe)
    ensures AllRight(s) ==> AllRight(SendPass(s))
    decreases |s.sendQ|
  {
    hide LeadsTo;
    if s.sendQ == [] || s.sendCount >= SEND_WINDOW {
      LeadsToSelf(s, safe);
    } else {
      SendPassIsRun(DoSubmitSend(s), safe);
      StepThen(s, SubmitSend, SendPass(s), safe);
    }
  }

  lemma {:induction false} PostAllIsRun(s: State, safe: bool)
    requires Typed(s) && InBounds(s) && !s.exited && (safe ==> AllRight(s))
    ensures LeadsTo(s, PostAll(s), safe) && (AllRight(s) ==> AllRight(PostAll(s)))
    decreases |s.batch|
  {
    hide LeadsTo, Typed, InBounds, Harmless, AllRight;
    if s.batch == [] {
      LeadsToSelf(s, safe);
    } else {
      CanPost(s);
      PostNextTyped(s);
      PostNextInBounds(s);
      if AllRight(s) {
        AllRightKept(s, PostNext);
        RightIsHarmless(s, PostNext);
      }
      PostAllIsRun(DoPostNext(s), safe);
      StepThen(s, PostNext, PostAll(s), safe);
    }
  }

  /** With every channel right the pass is a harmless run. */
  lemma RecvPassIsRun(s: State, safe: bool)
    requires Between(s) && (safe ==> AllRight(s))
    ensures LeadsTo(s, RecvPass(s), safe) && (AllRight(s) ==> AllRight(RecvPass(s)))
  {
    hide LeadsTo;
    PostAllIsRun(DoDrain(s), safe);
    StepThen(s, Drain, RecvPass(s), safe);
  }

  lemma {:induction false} ScanIsRun(s: State, done: set<nat>, idx: nat, safe: bool)
    requires !s.exited
    requires forall r | r in s.ops && r.ticket in done :: Ready(s, r)
    ensures LeadsTo(s, Scan(s, done, idx), safe)
    decreases |s.ops| - idx
  {
    hide LeadsTo, DecodeTag;
    if idx >= |s.ops| {
      LeadsToSelf(s, safe);
    } else if s.ops[idx].ticket in done {
      assert s.ops[idx] in s.ops;
      SwapRemoveMembers(s.ops, idx);
      ScanIsRun(DoComplete(s, idx), done, idx, safe);
      StepThen(s, Complete(idx), Scan(s, done, idx), safe);
    } else {
      ScanIsRun(s, done, idx + 1, safe);
    }
  }

  lemma ServePassIsRun(s: State, safe: bool)
    requires Between(s) && (safe ==> AllRight(s))
    ensures LeadsTo(s, ServePass(s), safe) && (AllRight(s) ==> AllRight(ServePass(s)))
  {
    hide LeadsTo, Between, AllRight, PullOnce, SendPass, RecvPass;
    BetweenMeans(s);
    var s1 := PullOnce(s);
    var s2 := SendPass(s1);
    PullIsRun(s, safe);
    PullBetween(s);
    BetweenMeans(s1);
    SendPassIsRun(s1, safe);
    SendBetween(s1);
    RecvPassIsRun(s2, safe);
    LeadsToJoin(s, s1, s2, safe);
    LeadsToJoin(s, s2, ServePass(s), safe);
  }

  lemma BetweenMeans(s: State)
    requires Between(s)
    ensures Typed(s) && Shaped(s.index) && InBounds(s) && !s.exited && s.batch == []
  {
  }

  lemma ScanKeeps(s: State, done: set<nat>)
    ensures AllRight(s) ==> AllRight(Scan(s, done, 0))
    ensures Scan(s, done, 0).batch == s.batch && Scan(s, done, 0).recvQ == s.recvQ
    ensures Scan(s, done, 0).exited == s.exited
    ensures InBounds(s) ==> InBounds(Scan(s, done, 0))
  {
    hide RightChannel, Scan;
    ScanCompletes(s, done, 0);
  }

  /** A turn is a run of engine steps; with every channel right a harmless one,
      which leaves every channel right. */
  lemma TurnIsRun(s: State, finish: set<nat>, safe: bool)
    requires Between(s) && (safe ==> AllRight(s))
    ensures LeadsTo(s, TurnPass(s, finish), safe) && (AllRight(s) ==> AllRight(TurnPass(s, finish)))
  {
    hide LeadsTo, Between, AllRight, ServePass, Ready, Scan;
    var s1 := ServePass(s);
    var done := Finishing(s1, finish);
    ServePassIsRun(s, safe);
    ServeBetween(s);
    BetweenMeans(s1);
    ScanIsRun(s1, done, 0, safe);
    ScanKeeps(s1, done);
    LeadsToJoin(s, s1, TurnPass(s, finish), safe);
  }
}
