/** What becomes of a submission over every run: it is carried out as it was
    asked for, and the receives are handed over in the order of their calls. */
module Wishes {
  import opened Protocol
  import opened Sequences
  import opened Matching
  import opened Engine
  import opened Conservation
  import opened Delivery
  import opened Refinement
  import opened Invariant
  import C = Calls
  import G = Guarantees
  import S = StaleChannel

  // ----- what was asked for -----

  /** What one call asks of the worker. */
  datatype Wish =
    | Sending(fields: Fields, tag: bv64, dest: bv32)
    | Receiving(want: Selector, held: Option<Message>)

  /** The wish of a step; a probe's hit asks for the probed tag, and brings the
      message if the probe has removed it. */
  function WishOf(s: State, step: Step): seq<Wish>
    requires Enabled(s, step)
  {
    match step
    case Send(channel, me, dest, tag) => [Sending(Fields(channel, me, tag), EncodeTag(channel, me, tag), dest)]
    case Recv(want, _) => [Receiving(want, None)]
    case RequestRecv(i) =>
      var b := s.user[i].body;
      [Receiving(Exactly(b.senderTag), if b.remove then b.found else None)]
    case _ => []
  }

  /** All wishes of a run, in the order of the calls. */
  function WishesOf(s: State, steps: seq<Step>): seq<Wish>
    requires CanRun(s, steps)
    decreases |steps|
  {
    if steps == [] then [] else WishOf(s, steps[0]) + WishesOf(Apply(s, steps[0]), steps[1..])
  }

  // ----- it is carried out -----

  /** The request is what the wish makes it; until it is handed over, a receive
      holds just the message that it was given to start with. */
  ghost predicate Grants(r: Request, w: Wish, queued: bool) {
    match w
    case Sending(fields, tag, dest) => r.kind == SendKind && r.body == SendBody(tag, dest) && r.fields == fields
    case Receiving(want, held) => r.body.RecvBody? && r.body.want == want && (queued ==> r.body.msg == held)
  }

  ghost predicate GrantsAll(q: seq<Request>, wishes: seq<Wish>, queued: bool) {
    forall r | r in q :: r.ticket < |wishes| && Grants(r, wishes[r.ticket], queued)
  }

  /** Every request and every entry of the log is that of its wish. */
  ghost predicate AsWished(s: State, wishes: seq<Wish>) {
    && |wishes| == s.tickets
    && GrantsAll(s.sendQ, wishes, true) && GrantsAll(s.recvQ, wishes, true) && GrantsAll(s.batch, wishes, true)
    && GrantsAll(s.ops, wishes, false)
    && (forall c | c in s.log :: c.request.ticket < |wishes| && Grants(c.request, wishes[c.request.ticket], false))
    && (forall p | p in s.index.posted ::
          p.ticket < |wishes| && wishes[p.ticket].Receiving? && wishes[p.ticket].want == p.want)
  }

  lemma MatchedGrants(r: Request, x: Index, w: Wish)
    requires Shaped(x) && r.body.RecvBody? && r.fields.channel < 0x100 && Grants(r, w, true)
    ensures Grants(Matched(r, x), w, false) && Matched(r, x).ticket == r.ticket
  {
    hide DecodeTag, HasMatch, FirstMatch;
  }

  lemma PostPosted(x: Index, ticket: nat, c: nat, want: Selector)
    requires Shaped(x) && c < MAX_CHANNELS
    ensures forall p | p in Post(x, ticket, c, want).posted :: p in x.posted || p == Posted(ticket, want)
  {
    hide TagMatches, FirstMatch, HasMatch;
  }

  lemma ArrivePosted(x: Index, m: Message)
    ensures forall p | p in Arrive(x, m).posted :: p in x.posted
  {
    hide TagMatches;
  }

  lemma PostNextWished(s: State, wishes: seq<Wish>)
    requires AsWished(s, wishes) && Enabled(s, PostNext)
    ensures AsWished(DoPostNext(s), wishes)
  {
    hide Matched, Post, Grants, OneChannel;
    var r := s.batch[0];
    assert r in s.batch;
    MatchedGrants(r, s.index, wishes[r.ticket]);
    if r.body.msg == None {
      GrantsWant(r, wishes[r.ticket], true);
      PostPosted(s.index, r.ticket, r.fields.channel as nat, r.body.want);
    }
  }

  lemma GrantsWant(r: Request, w: Wish, queued: bool)
    requires Grants(r, w, queued) && r.body.RecvBody?
    ensures w.Receiving? && w.want == r.body.want && (queued ==> w.held == r.body.msg)
  {
  }

  lemma CompleteWished(s: State, wishes: seq<Wish>, i: nat)
    requires AsWished(s, wishes) && i < |s.ops|
    ensures AsWished(DoComplete(s, i), wishes)
  {
    hide SwapRemove, DecodeTag, MessageOf;
    SwapRemoveMembers(s.ops, i);
    assert s.ops[i] in s.ops;
  }

  lemma GrantedOn(q: seq<Request>, wishes: seq<Wish>, more: seq<Wish>, queued: bool)
    requires GrantsAll(q, wishes, queued)
    ensures GrantsAll(q, wishes + more, queued)
  {
    hide Grants;
  }

  lemma WishedOn(s: State, wishes: seq<Wish>, w: Wish)
    requires AsWished(s, wishes)
    ensures AsWished(s.(tickets := s.tickets + 1), wishes + [w])
  {
    hide Grants;
  }

  lemma NewWished(s: State, step: Step, wishes: seq<Wish>)
    requires Enabled(s, step) && AsWished(s, wishes) && (step.Send? || step.Recv? || step.RequestRecv?)
    ensures AsWished(Apply(s, step), wishes + WishOf(s, step))
  {
    hide EncodeTag, Exactly, AfterNew, NodeFor, OneChannel, Without;
    WishedOn(s, wishes, WishOf(s, step)[0]);
  }

  lemma StepWished(s: State, step: Step, wishes: seq<Wish>)
    requires Enabled(s, step) && AsWished(s, wishes)
    ensures AsWished(Apply(s, step), wishes + WishOf(s, step))
  {
    hide DoSend, DoRecv, DoRequestRecv, DoPostNext, DoComplete, AsWished, DoProbe, Pull, Arrive;
    if step.Send? || step.Recv? || step.RequestRecv? {
      NewWished(s, step, wishes);
    } else {
      assert wishes + WishOf(s, step) == wishes;
      match step
      case PostNext => PostNextWished(s, wishes);
      case Complete(i) => CompleteWished(s, wishes, i);
      case _ => QuietWished(s, step, wishes);
    }
  }

  lemma QuietWished(s: State, step: Step, wishes: seq<Wish>)
    requires Enabled(s, step) && AsWished(s, wishes)
    requires !step.Send? && !step.Recv? && !step.RequestRecv? && !step.PostNext? && !step.Complete?
    ensures AsWished(Apply(s, step), wishes)
  {
    hide Arrive, FreeOf, WithFree, Without, AfterNew, NodeFor, Probed, HasMatch, FirstMatch, Grants, OneChannel,
      DecodeTag;
    match step
    case Arrival(m) => ArrivePosted(s.index, m);
    case SubmitSend =>
      assert Last(s.sendQ) in s.sendQ;
      HandedGrants(Last(s.sendQ), wishes[Last(s.sendQ).ticket]);
    case _ =>
  }

  lemma HandedGrants(r: Request, w: Wish)
    requires Grants(r, w, true)
    ensures Grants(r, w, false)
  {
  }

  lemma {:induction false} RunWished(s: State, steps: seq<Step>, wishes: seq<Wish>)
    requires CanRun(s, steps) && AsWished(s, wishes)
    ensures AsWished(Run(s, steps), wishes + WishesOf(s, steps))
    decreases |steps|
  {
    hide Enabled, Apply, AsWished, WishOf;
    if steps == [] {
      assert wishes + WishesOf(s, steps) == wishes;
    } else {
      StepWished(s, steps[0], wishes);
      var more := wishes + WishOf(s, steps[0]);
      RunWished(Apply(s, steps[0]), steps[1..], more);
      assert wishes + WishesOf(s, steps) == more + WishesOf(Apply(s, steps[0]), steps[1..]);
    }
  }

  /** Over every run, each queued, posted, running and completed request is the
      one that was asked for, and the tickets number the wishes. */
  lemma RunsAsWished(n: nat, steps: seq<Step>)
    requires CanRun(Start(n), steps)
    ensures AsWished(Run(Start(n), steps), WishesOf(Start(n), steps))
  {
    hide Start, CanRun, Run;
    StartBlank(n);
    RunWished(Start(n), steps, []);
    assert [] + WishesOf(Start(n), steps) == WishesOf(Start(n), steps);
  }

  // ----- what the labels say -----

  /** A receive is handed to the transport. */
  predicate HandsOver(l: Label) {
    l.LPost? || l.LGive?
  }

  /** How often the labels hand submission t over. */
  function Posts(labels: seq<Label>, t: nat): nat {
    if labels == [] then 0
    else (if HandsOver(labels[0]) && labels[0].ticket == t then 1 else 0) + Posts(labels[1..], t)
  }

  /** The labels hand over what was asked for: to be matched, or with the very
      message that it was given to start with. */
  ghost predicate LabelsTell(labels: seq<Label>, wishes: seq<Wish>) {
    forall l | l in labels ::
      && (l.LPost? ==> l.ticket < |wishes| && wishes[l.ticket] == Receiving(l.want, None))
      && (l.LGive? ==> l.ticket < |wishes| && wishes[l.ticket].Receiving? && wishes[l.ticket].held == Some(l.m))
  }

  lemma LabelTells(s: State, step: Step, wishes: seq<Wish>)
    requires Enabled(s, step) && AsWished(s, wishes)
    ensures LabelsTell([LabelOf(s, step)], wishes)
  {
    hide OneChannel, DecodeTag, HasMatch, FirstMatch;
    if step.PostNext? {
      var r := s.batch[0];
      assert r in s.batch;
      GrantsWant(r, wishes[r.ticket], true);
    }
  }

  lemma TellsOn(labels: seq<Label>, wishes: seq<Wish>, more: seq<Wish>)
    requires LabelsTell(labels, wishes)
    ensures LabelsTell(labels, wishes + more)
  {
  }

  lemma TellsBoth(a: seq<Label>, b: seq<Label>, wishes: seq<Wish>)
    requires LabelsTell(a, wishes) && LabelsTell(b, wishes)
    ensures LabelsTell(a + b, wishes)
  {
  }

  lemma {:induction false} RunTells(s: State, steps: seq<Step>, wishes: seq<Wish>)
    requires CanRun(s, steps) && AsWished(s, wishes)
    ensures LabelsTell(LabelsOf(s, steps), wishes + WishesOf(s, steps))
    decreases |steps|
  {
    hide Enabled, Apply, AsWished, WishOf, LabelOf, LabelsTell;
    if steps == [] {
      NothingTold(wishes + WishesOf(s, steps));
      assert LabelsOf(s, steps) == [];
    } else {
      StepWished(s, steps[0], wishes);
      LabelTells(s, steps[0], wishes);
      var more := wishes + WishOf(s, steps[0]);
      RunTells(Apply(s, steps[0]), steps[1..], more);
      assert wishes + WishesOf(s, steps) == more + WishesOf(Apply(s, steps[0]), steps[1..]);
      TellsOn([LabelOf(s, steps[0])], wishes, WishesOf(s, steps));
      TellsBoth([LabelOf(s, steps[0])], LabelsOf(Apply(s, steps[0]), steps[1..]), wishes + WishesOf(s, steps));
    }
  }

  lemma NothingTold(wishes: seq<Wish>)
    ensures LabelsTell([], wishes)
  {
  }

  /** The hand-overs of a run are those that the operations and the log show. */
  lemma {:induction false} HandedOnce(s: State, steps: seq<Step>, t: nat)
    requires CanRun(s, steps) && Inv(s)
    ensures HandedOver(s, t) + Posts(LabelsOf(s, steps), t) == HandedOver(Run(s, steps), t)
    decreases |steps|
  {
    hide Enabled, Apply, Inv, LabelOf, HandedOver;
    if steps != [] {
      InvKept(s, steps[0]);
      HandsStep(s, steps[0], t);
      HandedOnce(Apply(s, steps[0]), steps[1..], t);
      OneMore(LabelOf(s, steps[0]), LabelsOf(Apply(s, steps[0]), steps[1..]), t);
    } else {
      assert LabelsOf(s, steps) == [];
    }
  }

  lemma OneMore(l: Label, labels: seq<Label>, t: nat)
    ensures Posts([l] + labels, t) == Posts([l], t) + Posts(labels, t)
  {
    assert ([l] + labels)[1..] == labels && [l][1..] == [];
  }

  lemma HandsStep(s: State, step: Step, t: nat)
    requires Enabled(s, step) && Inv(s)
    ensures HandedOver(Apply(s, step), t) == HandedOver(s, t) + Posts([LabelOf(s, step)], t)
  {
    hide Sum, DoPostNext, DoComplete, DoSubmitSend, TicketsConserved, WaitingOrGiven, NodesConserved, AllAtHome,
      GivenMatch, LogRight, HasMatch, FirstMatch, WindowExact;
    assert [LabelOf(s, step)][1..] == [];
    match step
    case SubmitSend => SubmitHands(s, t);
    case PostNext => PostHands(s, t);
    case Complete(i) => CompleteHands(s, i, t);
    case _ => OthersHand(s, step, t);
  }

  lemma SubmitHands(s: State, t: nat)
    requires Typed(s) && s.sendQ != []
    ensures HandedOver(DoSubmitSend(s), t) == HandedOver(s, t)
  {
    hide Sum;
    assert Last(s.sendQ) in s.sendQ;
    SumAppend(s.ops, Last(s.sendQ), RecvTicket);
  }

  lemma PostHands(s: State, t: nat)
    requires Typed(s) && Enabled(s, PostNext)
    ensures HandedOver(DoPostNext(s), t) == HandedOver(s, t) + if s.batch[0].ticket == t then 1 else 0
  {
    hide Sum, DecodeTag, HasMatch, Matched, Post;
    assert s.batch[0] in s.batch;
    MatchedSomeRecv(s.batch[0], s.index);
    SumAppend(s.ops, Last(DoPostNext(s).ops), RecvTicket);
  }

  lemma CompleteHands(s: State, i: nat, t: nat)
    requires i < |s.ops|
    ensures HandedOver(DoComplete(s, i), t) == HandedOver(s, t)
  {
    hide Sum, SwapRemove, DecodeTag, MessageOf;
    SumSwapRemove(s.ops, i, RecvTicket);
    SumAppend(s.log, Last(DoComplete(s, i).log), LogRecvTicket);
  }

  lemma OthersHand(s: State, step: Step, t: nat)
    requires Enabled(s, step) && !step.SubmitSend? && !step.PostNext? && !step.Complete?
    ensures HandedOver(Apply(s, step), t) == HandedOver(s, t) && !HandsOver(LabelOf(s, step))
  {
    hide Sum, Pull, Take, Arrive, HasMatch, FirstMatch, FreeOf, WithFree, DecodeTag, Without, AfterNew, NodeFor, Probed,
      EncodeTag;
  }

  // ----- the submission of a step -----

  lemma {:induction false} Splits(s: State, steps: seq<Step>, i: nat)
    requires CanRun(s, steps) && i <= |steps|
    ensures CanRun(s, steps[..i]) && CanRun(Run(s, steps[..i]), steps[i..])
    ensures Run(Run(s, steps[..i]), steps[i..]) == Run(s, steps)
    ensures WishesOf(s, steps) == WishesOf(s, steps[..i]) + WishesOf(Run(s, steps[..i]), steps[i..])
    decreases |steps|
  {
    hide Enabled, Apply, WishOf;
    if i == 0 {
      assert steps[..0] == [] && steps[0..] == steps;
    } else {
      Splits(Apply(s, steps[0]), steps[1..], i - 1);
      assert steps[..i][0] == steps[0] && steps[..i][1..] == steps[1..][..i - 1] && steps[i..] == steps[1..][i - 1..];
    }
  }

  /** The ticket that step i gets, if it submits something. */
  function TicketOfStep(n: nat, steps: seq<Step>, i: nat): nat
    requires CanRun(Start(n), steps) && i < |steps|
  {
    Splits(Start(n), steps, i);
    Run(Start(n), steps[..i]).tickets
  }

  lemma WishAt(n: nat, steps: seq<Step>, i: nat)
    requires CanRun(Start(n), steps) && i < |steps|
    ensures CanRun(Start(n), steps[..i]) && Enabled(Run(Start(n), steps[..i]), steps[i])
    ensures var t, w := TicketOfStep(n, steps, i), WishOf(Run(Start(n), steps[..i]), steps[i]);
            w != [] ==> t < |WishesOf(Start(n), steps)| && WishesOf(Start(n), steps)[t] == w[0]
  {
    hide Start, Run, Enabled, Apply, WishOf, AsWished;
    Splits(Start(n), steps, i);
    var s := Run(Start(n), steps[..i]);
    assert steps[i..][0] == steps[i];
    RunsAsWished(n, steps[..i]);
    WishedMany(s, WishesOf(Start(n), steps[..i]));
  }

  lemma WishedMany(s: State, wishes: seq<Wish>)
    requires AsWished(s, wishes)
    ensures |wishes| == s.tickets
  {
  }

  // ----- sends -----

  /** Over every run, a send stays what the call made it: queued, in flight and
      in the log it has the channel, sender, tag and destination of the call. */
  lemma SendAsAsked(n: nat, steps: seq<Step>, i: nat, r: Request)
    requires CanRun(Start(n), steps) && i < |steps| && steps[i].Send? && r.ticket == TicketOfStep(n, steps, i)
    requires var s := Run(Start(n), steps);
             r in s.sendQ || r in s.ops || exists c :: c in s.log && c.request == r
    ensures C.SendsIt(r, steps[i].channel, steps[i].me, steps[i].dest, steps[i].tag)
  {
    hide Start, CanRun, Run, Enabled, DecodeTag, EncodeTag, TicketOfStep;
    WishAt(n, steps, i);
    RunsAsWished(n, steps);
    DecodeEncode(steps[i].channel, steps[i].me, steps[i].tag);
    if r !in Run(Start(n), steps).sendQ && r !in Run(Start(n), steps).ops {
      var c :| c in Run(Start(n), steps).log && c.request == r;
    }
  }

  // ----- receives -----

  /** Over every run, a receive is handed over as the call asked, once it is in
      progress or completed and never before; and what it completes with is a
      message that it asked for, whose channel, sender and tag it reports. */
  lemma ReceiveAsAsked(n: nat, steps: seq<Step>, i: nat)
    requires CanRun(Start(n), steps) && i < |steps| && steps[i].Recv?
    ensures var t, s, labels := TicketOfStep(n, steps, i), Run(Start(n), steps), LabelsOf(Start(n), steps);
            && (forall l | l in labels && HandsOver(l) && l.ticket == t :: l == LPost(t, steps[i].want))
            && Posts(labels, t) == HandedOver(s, t)
            && forall c | c in s.log && c.request.ticket == t ::
                 && c.message.Some? && TagMatches(c.message.value.tag, steps[i].want)
                 && c.request.fields == DecodeTag(c.message.value.tag)
  {
    hide Start, CanRun, Run, Enabled, DecodeTag, TagMatches, TicketOfStep, Inv, LabelsOf, Posts, HandedOver;
    var t, s, labels := TicketOfStep(n, steps, i), Run(Start(n), steps), LabelsOf(Start(n), steps);
    WishAt(n, steps, i);
    Followed(n, steps, t, steps[i].want);
    StartInv(n);
    HandedOnce(Start(n), steps, t);
    NothingHanded(n, t);
    RunsAsWished(n, steps);
    StartBlank(n);
    RunTells(Start(n), steps, []);
    assert [] + WishesOf(Start(n), steps) == WishesOf(Start(n), steps);
  }

  lemma NothingHanded(n: nat, t: nat)
    ensures HandedOver(Start(n), t) == 0
  {
    hide Start;
    StartBlank(n);
  }

  /** What the completion of a receive of this wish reports. */
  lemma Followed(n: nat, steps: seq<Step>, t: nat, want: Selector)
    requires CanRun(Start(n), steps) && t < |WishesOf(Start(n), steps)|
    requires var w := WishesOf(Start(n), steps)[t]; w.Receiving? && w.want == want
    ensures forall c | c in Run(Start(n), steps).log && c.request.ticket == t ::
              && c.message.Some? && TagMatches(c.message.value.tag, want)
              && c.request.fields == DecodeTag(c.message.value.tag)
  {
    hide Start, CanRun, Run, DecodeTag, TagMatches;
    var s := Run(Start(n), steps);
    RunsAsWished(n, steps);
    assert G.Reachable(s);
    forall c | c in s.log && c.request.ticket == t
      ensures c.message.Some? && TagMatches(c.message.value.tag, want)
      ensures c.request.fields == DecodeTag(c.message.value.tag)
    {
      G.CompletionData(s, c);
    }
  }

  /** In terms of the arguments of clh_recv and clh_recv_from: the completed
      receive shows the channel asked for, a tag that agrees with the one asked
      for under the mask, and the sender asked for if there is one. */
  lemma ReceivedAsAsked(n: nat, steps: seq<Step>, i: nat, ask: C.Ask, c: Completion)
    requires CanRun(Start(n), steps) && i < |steps|
    requires steps[i].Recv? && steps[i].want == C.Selecting(ask) && C.Fits(ask)
    requires c in Run(Start(n), steps).log && c.request.ticket == TicketOfStep(n, steps, i)
    ensures c.message.Some? && c.request.fields == DecodeTag(c.message.value.tag) && C.Meets(ask, c.request.fields)
  {
    hide Start, CanRun, Run, DecodeTag, TagMatches, TicketOfStep, LabelsOf, Posts, HandedOver, C.Selecting, C.Meets;
    ReceiveAsAsked(n, steps, i);
    C.SelectingMeans(ask, c.message.value.tag);
  }

  /** A receive made of a probe's hit completes with the probed tag. */
  lemma RequestedAsProbed(n: nat, steps: seq<Step>, i: nat, c: Completion)
    requires CanRun(Start(n), steps) && i < |steps| && steps[i].RequestRecv?
    requires c in Run(Start(n), steps).log && c.request.ticket == TicketOfStep(n, steps, i)
    ensures CanRun(Start(n), steps[..i]) && Enabled(Run(Start(n), steps[..i]), steps[i])
    ensures var probe := Run(Start(n), steps[..i]).user[steps[i].i];
            && c.message.Some? && c.message.value.tag == probe.body.senderTag
            && c.request.fields == DecodeTag(probe.body.senderTag)
  {
    hide Start, CanRun, Run, DecodeTag, TagMatches, TicketOfStep, Exactly;
    WishAt(n, steps, i);
    var tag := Run(Start(n), steps[..i]).user[steps[i].i].body.senderTag;
    Followed(n, steps, c.request.ticket, Exactly(tag));
    ExactlyMeaning(c.message.value.tag, tag);
  }

  // ----- what the user is handed -----

  /** Every completed send and receive in the user's hands is in the log. */
  ghost predicate UserLogged(s: State) {
    forall r | r in s.user :: r.body.ProbeBody? || exists c :: c in s.log && c.request == r
  }

  lemma UserLoggedStep(s: State, step: Step)
    requires Enabled(s, step) && UserLogged(s)
    ensures UserLogged(Apply(s, step))
  {
    hide Pull, Take, Arrive, HasMatch, FirstMatch, FreeOf, WithFree, DecodeTag, AfterNew, NodeFor, EncodeTag, Matched,
      Post, Without, SwapRemove, Finished, MessageOf, Exactly, OneChannel;
    var s' := Apply(s, step);
    assert s.log <= s'.log;
    if step.Release? || step.RequestRecv? { WithoutMembers(s.user, step.i); }
    forall r | r in s'.user && !r.body.ProbeBody?
      ensures exists c :: c in s'.log && c.request == r
    {
      if r in s.user {
        var c :| c in s.log && c.request == r;
        assert c in s'.log;
      } else {
        assert Last(s'.log) in s'.log;
      }
    }
  }

  lemma {:induction false} UserLoggedRun(s: State, steps: seq<Step>)
    requires CanRun(s, steps) && UserLogged(s)
    ensures UserLogged(Run(s, steps))
    decreases |steps|
  {
    hide Enabled, Apply, UserLogged;
    if steps != [] {
      UserLoggedStep(s, steps[0]);
      UserLoggedRun(Apply(s, steps[0]), steps[1..]);
    }
  }

  /** So a receive that the user finds completed shows its own message. */
  lemma InHandAsLogged(s: State, r: Request)
    requires G.Reachable(s) && r in s.user && !r.body.ProbeBody?
    ensures exists c :: c in s.log && c.request == r
  {
    hide Start, CanRun, Run;
    var n: nat, steps :| CanRun(Start(n), steps) && Run(Start(n), steps) == s;
    StartBlank(n);
    UserLoggedRun(Start(n), steps);
  }

  // ----- what an operation shows -----

  /** A receive in progress that has taken a message shows the fields of that
      message, and it is the one that the transport was given for it. */
  ghost predicate OpsShow(s: State) {
    forall r | r in s.ops && r.body.RecvBody? && r.body.msg.Some? ::
      && r.ticket in s.index.given && s.index.given[r.ticket] == r.body.msg.value
      && r.fields == DecodeTag(r.body.msg.value.tag)
  }

  lemma ArrivalShows(s: State, m: Message)
    requires OpsShow(s) && WaitingOrGiven(s) && TicketsConserved(s)
    ensures OpsShow(DoArrival(s, m))
  {
    hide WaitingOrGiven, TicketsConserved, DecodeTag, TagMatches;
    var i := FirstTaker(s.index.posted, m);
    if i < |s.index.posted| { PostedNotGiven(s, i); }
  }

  lemma MatchedShows(r: Request, x: Index)
    requires Shaped(x) && QueuedRecv(r) && r.fields.channel < 0x100
    ensures var r', c := Matched(r, x), r.fields.channel as nat;
            && r'.ticket == r.ticket && r'.body.RecvBody?
            && (r'.body.msg.Some? ==> r'.fields == DecodeTag(r'.body.msg.value.tag))
            && (r.body.msg.Some? ==> r' == r)
            && (r.body.msg == None && r'.body.msg.Some? ==>
                  HasMatch(x.lists[c], r.body.want)
                  && r'.body.msg.value == x.lists[c][FirstMatch(x.lists[c], r.body.want)])
  {
    hide DecodeTag, TagMatches, FirstMatch, Exactly, OneChannel;
    if r.body.msg.Some? {
      ExactlyMeaning(r.body.msg.value.tag, r.body.want.tag);
    }
  }

  lemma PostNextShows(s: State)
    requires OpsShow(s) && Inv(s) && Typed(s) && Enabled(s, PostNext)
    ensures OpsShow(DoPostNext(s))
  {
    hide Inv, Typed, QueuedRecv, DecodeTag, TagMatches, Matched, FirstMatch, OneChannel, Take, Hand;
    var r := s.batch[0];
    HeadQueuedRecv(s);
    S.HeadFreshHere(s);
    MatchedShows(r, s.index);
  }

  lemma HeadQueuedRecv(s: State)
    requires Typed(s) && s.batch != []
    ensures QueuedRecv(s.batch[0])
  {
    assert s.batch[0] in s.batch;
  }

  lemma ShowsStep(s: State, step: Step)
    requires OpsShow(s) && Inv(s) && Enabled(s, step)
    ensures OpsShow(Apply(s, step))
  {
    hide Inv, DoArrival, DoPostNext, SwapRemove, OneChannel, DecodeTag, Without, AfterNew, NodeFor, Probed, EncodeTag,
      Exactly, HasMatch, FreeOf, WithFree, Chan;
    S.InvTyped(s);
    match step
    case Arrival(m) =>
      InvTickets(s);
      ArrivalShows(s, m);
    case PostNext => PostNextShows(s);
    case SubmitSend => assert Last(s.sendQ) in s.sendQ;
    case Complete(i) => SwapRemoveMembers(s.ops, i);
    case _ =>
  }

  lemma InvTickets(s: State)
    requires Inv(s)
    ensures WaitingOrGiven(s) && TicketsConserved(s)
  {
  }

  lemma {:induction false} ShowsRun(s: State, steps: seq<Step>)
    requires CanRun(s, steps) && Inv(s) && OpsShow(s)
    ensures OpsShow(Run(s, steps))
    decreases |steps|
  {
    hide Inv, Enabled, Apply, OpsShow;
    if steps != [] {
      ShowsStep(s, steps[0]);
      InvKept(s, steps[0]);
      ShowsRun(Apply(s, steps[0]), steps[1..]);
    }
  }

  /** In every reachable state. */
  lemma InProgressShows(s: State, r: Request)
    requires G.Reachable(s) && r in s.ops && r.body.RecvBody? && r.body.msg.Some?
    ensures r.ticket in s.index.given && s.index.given[r.ticket] == r.body.msg.value
    ensures r.fields == DecodeTag(r.body.msg.value.tag)
  {
    hide Start, CanRun, Run, Inv;
    var n: nat, steps :| CanRun(Start(n), steps) && Run(Start(n), steps) == s;
    StartInv(n);
    StartBlank(n);
    ShowsRun(Start(n), steps);
  }

  // ----- in the order of the calls -----

  /** The receives not yet handed over, oldest call first. */
  function Pending(s: State): seq<Request> {
    s.batch + s.recvQ
  }

  ghost predicate Rising(q: seq<Request>) {
    forall i, j | 0 <= i < j < |q| :: q[i].ticket < q[j].ticket
  }

  /** Pending receives are in the order of their tickets, which are above b. */
  ghost predicate InOrder(s: State, b: int) {
    Rising(Pending(s)) && b < s.tickets && forall r | r in Pending(s) :: b < r.ticket < s.tickets
  }

  ghost predicate Ordered(labels: seq<Label>) {
    forall i, j | 0 <= i < j < |labels| && HandsOver(labels[i]) && HandsOver(labels[j]) ::
      labels[i].ticket < labels[j].ticket
  }

  ghost predicate Above(labels: seq<Label>, b: int) {
    forall l | l in labels && HandsOver(l) :: b < l.ticket
  }

  lemma HeadFirst(s: State, b: int)
    requires InOrder(s, b) && Enabled(s, PostNext)
    ensures var l := LabelOf(s, PostNext);
            HandsOver(l) && l.ticket == s.batch[0].ticket && b < l.ticket && InOrder(DoPostNext(s), l.ticket)
  {
    hide OneChannel, Matched, Post;
    assert Pending(DoPostNext(s)) == Pending(s)[1..];
    assert Pending(s)[0] == s.batch[0];
  }

  lemma OrderKept(s: State, step: Step, b: int)
    requires InOrder(s, b) && Enabled(s, step) && !step.PostNext?
    ensures InOrder(Apply(s, step), b) && !HandsOver(LabelOf(s, step))
  {
    hide Pull, Take, Arrive, HasMatch, FirstMatch, FreeOf, WithFree, DecodeTag, Without, AfterNew, NodeFor, Probed,
      EncodeTag, Exactly, OneChannel;
    var s' := Apply(s, step);
    if step.Recv? || step.RequestRecv? {
      assert Pending(s') == Pending(s) + [Last(s'.recvQ)];
    } else {
      assert Pending(s') == Pending(s);
    }
  }

  lemma {:induction false} RunOrdered(s: State, steps: seq<Step>, b: int)
    requires CanRun(s, steps) && InOrder(s, b)
    ensures Ordered(LabelsOf(s, steps)) && Above(LabelsOf(s, steps), b)
    decreases |steps|
  {
    hide Enabled, Apply, InOrder, LabelOf;
    if steps != [] {
      var l := LabelOf(s, steps[0]);
      var b' := if HandsOver(l) then l.ticket else b;
      if steps[0].PostNext? { HeadFirst(s, b); } else { OrderKept(s, steps[0], b); }
      ApplyPost(s, steps[0]);
      RunOrdered(Apply(s, steps[0]), steps[1..], b');
    } else {
      assert LabelsOf(s, steps) == [];
    }
  }

  lemma ApplyPost(s: State, step: Step)
    requires Enabled(s, step)
    ensures step.PostNext? ==> Apply(s, step) == DoPostNext(s)
  {
  }

  /** Over every run, receives are handed over in the order of their calls. */
  lemma HandedInOrder(n: nat, steps: seq<Step>)
    requires CanRun(Start(n), steps)
    ensures var labels := LabelsOf(Start(n), steps);
            forall i, j | 0 <= i < j < |labels| && HandsOver(labels[i]) && HandsOver(labels[j]) ::
              labels[i].ticket < labels[j].ticket
  {
    hide Start, CanRun, LabelsOf;
    StartBlank(n);
    RunOrdered(Start(n), steps, -1);
  }
}
