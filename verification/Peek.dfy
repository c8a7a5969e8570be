/** Probing without removing, and receiving afterwards (clh.c:612-669, 284-297). */
module Peek {
  import opened Protocol
  import opened Sequences
  import opened Matching
  import opened Engine
  import opened Delivery
  import opened Messages
  import opened Refinement
  import opened Invariant

  /** m is the first message with its tag in its channel's list. */
  predicate Leads(x: Index, m: Message)
    requires Shaped(x)
  {
    var l := x.lists[Chan(m.tag)];
    HasMatch(l, Exactly(m.tag)) && l[FirstMatch(l, Exactly(m.tag))] == m
  }

  /** The step takes m out of its list. */
  predicate Takes(s: State, step: Step, m: Message)
    requires Enabled(s, step)
  {
    match step
    case Probe(channel, want, remove, _) =>
      var l := s.index.lists[channel as nat];
      remove && HasMatch(l, want) && l[FirstMatch(l, want)] == m
    case PostNext =>
      var l := s.index.lists[s.batch[0].fields.channel as nat];
      var want := s.batch[0].body.want;
      s.batch[0].body.msg == None && HasMatch(l, want) && l[FirstMatch(l, want)] == m
    case _ => false
  }

  predicate NobodyTakes(s: State, steps: seq<Step>, m: Message)
    requires CanRun(s, steps)
    decreases |steps|
  {
    steps != [] ==> !Takes(s, steps[0], m) && NobodyTakes(Apply(s, steps[0]), steps[1..], m)
  }

  /** What a probe hits leads its tag: everything before it has another tag. */
  lemma HitLeads(x: Index, want: Selector)
    requires Shaped(x) && OneChannel(want) && HasMatch(x.lists[Chan(want.tag)], want)
    ensures var l := x.lists[Chan(want.tag)]; Leads(x, l[FirstMatch(l, want)])
  {
    hide Chan, OneChannel, Exactly;
    var l := x.lists[Chan(want.tag)];
    var i := FirstMatch(l, want);
    var m := l[i];
    MatchesStayOnChannel(m.tag, want);
    ExactlyMeaning(m.tag, m.tag);
    forall j | 0 <= j < i
      ensures !TagMatches(l[j].tag, Exactly(m.tag))
    {
      ExactlyMeaning(l[j].tag, m.tag);
    }
    FirstMatchIs(l, Exactly(m.tag), i);
  }

  /** Appending behind m, or taking another message, leaves m in the lead. */
  lemma AppendKeepsLead(l: seq<Message>, e: Message, s: Selector)
    requires HasMatch(l, s)
    ensures FirstMatch(l + [e], s) == FirstMatch(l, s)
  {
    FirstMatchInLeft(l, [e], s);
  }

  lemma WithoutKeepsLead(l: seq<Message>, i: nat, s: Selector)
    requires HasMatch(l, s) && i < |l| && i != FirstMatch(l, s)
    ensures HasMatch(Without(l, i), s)
    ensures Without(l, i)[FirstMatch(Without(l, i), s)] == l[FirstMatch(l, s)]
  {
    hide TagMatches;
    var k := FirstMatch(l, s);
    FirstMatchIs(Without(l, i), s, if i < k then k - 1 else k);
  }

  /** Taking the first match of some selector out of a list keeps the lead of
      every message but the one taken. */
  lemma TakeKeepsLead(x: Index, c: nat, want: Selector, m: Message)
    requires Shaped(x) && c < MAX_CHANNELS && HasMatch(x.lists[c], want) && Leads(x, m)
    requires x.lists[c][FirstMatch(x.lists[c], want)] != m
    ensures Leads(Take(x, c, want), m)
  {
    hide TagMatches, Chan, Exactly;
    if c == Chan(m.tag) {
      WithoutKeepsLead(x.lists[c], FirstMatch(x.lists[c], want), Exactly(m.tag));
    }
  }

  lemma LeadKept(s: State, step: Step, m: Message)
    requires Enabled(s, step) && Shaped(s.index) && Leads(s.index, m) && !Takes(s, step, m)
    ensures Shaped(Apply(s, step).index) && Leads(Apply(s, step).index, m)
  {
    hide TagMatches, DecodeTag, Leads, DoProbe, DoPostNext, DoComplete, FirstTaker, HasMatch, FirstMatch;
    match step
    case Arrival(m') => SameLists(s.index, Arrive(s.index, m'), m);
    case PullOne => PullKeepsLead(s.index, m);
    case PostNext => PostKeepsLead(s, m);
    case Probe(channel, want, remove, left) => ProbeKeepsLead(s, channel, want, remove, left, m);
    case _ => OthersSameIndex(s, step);
  }

  lemma OthersSameIndex(s: State, step: Step)
    requires Enabled(s, step) && !(step.Arrival? || step.PullOne? || step.PostNext? || step.Probe?)
    ensures Apply(s, step).index == s.index
  {
    hide FreeOf, WithFree, NodeFor, DecodeTag;
  }

  lemma ProbeKeepsLead(s: State, channel: bv32, want: Selector, remove: bool, left: Fields, m: Message)
    requires Shaped(s.index) && channel < 0x100 && Leads(s.index, m)
    requires var l := s.index.lists[channel as nat];
             !(remove && HasMatch(l, want) && l[FirstMatch(l, want)] == m)
    ensures Shaped(DoProbe(s, channel, want, remove, left).index)
    ensures Leads(DoProbe(s, channel, want, remove, left).index, m)
  {
    hide Leads, FirstMatch, Take, FreeOf, WithFree, NodeFor, Probed;
    if remove && HasMatch(s.index.lists[channel as nat], want) {
      TakeKeepsLead(s.index, channel as nat, want, m);
    }
  }

  lemma SameLists(x: Index, x': Index, m: Message)
    requires Shaped(x) && x'.lists == x.lists && Leads(x, m)
    ensures Leads(x', m)
  {
  }

  lemma PullKeepsLead(x: Index, m: Message)
    requires Shaped(x) && x.unexpected != [] && Leads(x, m)
    ensures Leads(Pull(x), m)
  {
    hide TagMatches, Chan, Exactly;
    AppendKeepsLead(x.lists[Chan(m.tag)], x.unexpected[0], Exactly(m.tag));
  }

  lemma PostKeepsLead(s: State, m: Message)
    requires Enabled(s, PostNext) && Leads(s.index, m) && !Takes(s, PostNext, m)
    ensures Shaped(DoPostNext(s).index) && Leads(DoPostNext(s).index, m)
  {
    hide TagMatches, Chan, Exactly, DecodeTag, Matched, Leads;
    var x, r := s.index, s.batch[0];
    var c := r.fields.channel as nat;
    match r.body.msg {
      case Some(m') => SameLists(x, DoPostNext(s).index, m);
      case None =>
        if HasMatch(x.lists[c], r.body.want) {
          TakeKeepsLead(x, c, r.body.want, m);
          SameLists(Take(x, c, r.body.want), DoPostNext(s).index, m);
        } else {
          SameLists(x, DoPostNext(s).index, m);
        }
    }
  }

  // ----- a taken message does not come back -----

  lemma ArrivalLeavesGone(x: Index, m': Message, m: Message)
    requires !Present(x, m) && m' != m
    ensures !Present(Arrive(x, m'), m)
  {
    hide TagMatches, FirstTaker;
  }

  lemma PullLeavesGone(x: Index, m: Message)
    requires Shaped(x) && x.unexpected != [] && !Present(x, m)
    ensures !Present(Pull(x), m)
  {
    hide Chan;
    assert x.unexpected[0] in x.unexpected;
  }

  lemma TakeLeavesGone(x: Index, c: nat, want: Selector, m: Message)
    requires Shaped(x) && c < MAX_CHANNELS && HasMatch(x.lists[c], want) && !Present(x, m)
    ensures !Present(Take(x, c, want), m)
  {
    hide TagMatches, FirstMatch;
    WithoutMembers(x.lists[c], FirstMatch(x.lists[c], want));
  }

  lemma PostLeavesGone(x: Index, t: nat, c: nat, want: Selector, m: Message)
    requires Shaped(x) && c < MAX_CHANNELS && !Present(x, m)
    ensures !Present(Post(x, t, c, want), m)
  {
    hide TagMatches, FirstMatch, Take;
    if HasMatch(x.lists[c], want) {
      TakeLeavesGone(x, c, want, m);
    } else if FirstMatch(x.unexpected, want) < |x.unexpected| {
      WithoutMembers(x.unexpected, FirstMatch(x.unexpected, want));
    }
  }

  lemma GoneKept(s: State, step: Step, m: Message)
    requires Enabled(s, step) && Numbered(s) && m in s.arrived && !Present(s.index, m)
    ensures !Present(Apply(s, step).index, m) && m in Apply(s, step).arrived
  {
    hide TagMatches, OneChannel, DecodeTag, Matched, FreeOf, WithFree, NodeFor, Probed, Present, Pull, Take, Arrive,
      Post;
    match step
    case Arrival(m') => ArrivalLeavesGone(s.index, m', m);
    case PullOne => PullLeavesGone(s.index, m);
    case Probe(channel, want, remove, _) =>
      if remove && HasMatch(s.index.lists[channel as nat], want) {
        TakeLeavesGone(s.index, channel as nat, want, m);
      }
    case PostNext => PostNextLeavesGone(s, m);
    case _ =>
  }

  lemma PostNextLeavesGone(s: State, m: Message)
    requires Enabled(s, PostNext) && !Present(s.index, m)
    ensures !Present(DoPostNext(s).index, m)
  {
    hide DecodeTag, Matched, Post, HasMatch;
    var r := s.batch[0];
    if r.body.msg == None {
      PostLeavesGone(s.index, r.ticket, r.fields.channel as nat, r.body.want, m);
    }
  }

  /** A taken message is gone: it now belongs to one probe or one receive. */
  lemma TakenIsGone(s: State, step: Step, m: Message)
    requires Enabled(s, step) && Inv(s) && Takes(s, step, m)
    ensures !Present(Apply(s, step).index, m) && m in Apply(s, step).arrived
  {
    hide Inv, Present, DecodeTag, FirstMatch, FreeOf, WithFree, NodeFor;
    var s' := Apply(s, step);
    InvKept(s, step);
    InvParts(s');
    match step
    case Probe(_, _, _, _) => HeldIsGone(s', |s'.user| - 1);
    case PostNext => GivenIsGone(s', s.batch[0].ticket);
  }

  lemma InvParts(s: State)
    requires Inv(s)
    ensures Typed(s) && MessagesConserved(s) && Numbered(s) && TicketFacts(s)
  {
  }

  // ----- the theorem -----

  lemma {:induction false} LeadsUntilTaken(s: State, steps: seq<Step>, m: Message)
    requires CanRun(s, steps) && Inv(s) && Shaped(s.index) && Leads(s.index, m)
    ensures Shaped(Run(s, steps).index)
    ensures NobodyTakes(s, steps, m) ==> Leads(Run(s, steps).index, m)
    ensures !NobodyTakes(s, steps, m) ==> !Present(Run(s, steps).index, m)
    decreases |steps|
  {
    hide Inv, Apply, Enabled, Leads, Takes, Present;
    if steps != [] {
      var step, s' := steps[0], Apply(s, steps[0]);
      InvKept(s, step);
      if Takes(s, step, m) {
        TakenIsGone(s, step, m);
        StaysGone(s', steps[1..], m);
        RunInv(s, steps);
        InvParts(Run(s, steps));
      } else {
        LeadKept(s, step, m);
        LeadsUntilTaken(s', steps[1..], m);
      }
    }
  }

  lemma {:induction false} StaysGone(s: State, steps: seq<Step>, m: Message)
    requires CanRun(s, steps) && Inv(s) && m in s.arrived && !Present(s.index, m)
    ensures !Present(Run(s, steps).index, m)
    decreases |steps|
  {
    hide Inv, Apply, Enabled, Present;
    if steps != [] {
      InvKept(s, steps[0]);
      InvParts(s);
      GoneKept(s, steps[0], m);
      StaysGone(Apply(s, steps[0]), steps[1..], m);
    }
  }

  /** What a receive is given was there. */
  lemma GivenWasPresent(x: Index, t: nat, c: nat, want: Selector)
    requires Shaped(x) && c < MAX_CHANNELS && t !in x.given
    ensures t in Post(x, t, c, want).given ==> Present(x, Post(x, t, c, want).given[t])
  {
    hide TagMatches, FirstMatch;
    if HasMatch(x.lists[c], want) {
      assert x.lists[c][FirstMatch(x.lists[c], want)] in x.lists[c];
    }
  }

  /** The receive came from a probe, or its channel is right anyway. */
  predicate AsksRightList(r: Request)
    requires r.body.RecvBody?
  {
    r.kind == ProbeKind || RightChannel(r)
  }

  /** A receive for exactly m's tag looks for m in the right list. */
  lemma ExactReceive(s: State, m: Message)
    requires Typed(s) && TicketFacts(s) && Enabled(s, PostNext)
    requires s.batch[0].body == RecvBody(Exactly(m.tag), None) && RightChannel(s.batch[0])
    ensures Leads(s.index, m) ==> Takes(s, PostNext, m)
    ensures s.batch[0].ticket !in s.index.given
  {
    hide TagMatches, OneChannel, DecodeTag, FirstMatch, TicketFacts;
    assert s.batch[0] in s.batch;
    HeadFresh(s);
  }

  lemma HeadAsksRightList(s: State)
    requires Typed(s) && s.batch != [] && s.batch[0].body.RecvBody? && AsksRightList(s.batch[0])
    ensures RightChannel(s.batch[0])
  {
    assert s.batch[0] in s.batch;
  }

  /** It is given m if m leads its list, and only if m is still there. */
  lemma ExactReceiveGiven(s: State, m: Message)
    requires Inv(s) && Enabled(s, PostNext)
    requires s.batch[0].body == RecvBody(Exactly(m.tag), None) && AsksRightList(s.batch[0])
    ensures Shaped(s.index)
    ensures var t, given := s.batch[0].ticket, DoPostNext(s).index.given;
            && (Leads(s.index, m) ==> t in given && given[t] == m)
            && (t in given && given[t] == m ==> Present(s.index, m))
  {
    hide Inv, Exactly, DecodeTag, FirstMatch, Matched, Leads, Present, Typed;
    InvParts(s);
    HeadAsksRightList(s);
    ExactReceive(s, m);
    GivenWasPresent(s.index, s.batch[0].ticket, s.batch[0].fields.channel as nat, s.batch[0].body.want);
  }

  /** After a non-removing probe hit m, a later receive of the probed tag is
      given m if and only if nobody took m in between, whatever else arrived,
      was pulled, probed or received meanwhile. */
  lemma PeekThenReceive(s: State, channel: bv32, want: Selector, left: Fields, steps: seq<Step>, m: Message)
    requires Inv(s) && Enabled(s, Probe(channel, want, false, left))
    requires HasMatch(s.index.lists[channel as nat], want)
    requires m == s.index.lists[channel as nat][FirstMatch(s.index.lists[channel as nat], want)]
    requires var s1 := Apply(s, Probe(channel, want, false, left)); CanRun(s1, steps)
    requires var e := Run(Apply(s, Probe(channel, want, false, left)), steps);
             Enabled(e, PostNext) && e.batch[0].body == RecvBody(Exactly(m.tag), None) && AsksRightList(e.batch[0])
    ensures var s1 := Apply(s, Probe(channel, want, false, left));
            var e := Run(s1, steps);
            var given := DoPostNext(e).index.given;
            (e.batch[0].ticket in given && given[e.batch[0].ticket] == m) <==> NobodyTakes(s1, steps, m)
  {
    var probe := Probe(channel, want, false, left);
    var s1 := Apply(s, probe);
    var e := Run(s1, steps);
    PeekSetup(s, channel, want, left, m);
    PeekRun(s1, steps, m);
  }

  lemma PeekSetup(s: State, channel: bv32, want: Selector, left: Fields, m: Message)
    requires Inv(s) && Enabled(s, Probe(channel, want, false, left))
    requires HasMatch(s.index.lists[channel as nat], want)
    requires m == s.index.lists[channel as nat][FirstMatch(s.index.lists[channel as nat], want)]
    ensures var s1 := Apply(s, Probe(channel, want, false, left));
            Inv(s1) && Shaped(s1.index) && Leads(s1.index, m)
  {
    hide Inv, OneChannel, Leads, FirstMatch;
    var probe := Probe(channel, want, false, left);
    InvKept(s, probe);
    assert Chan(want.tag) == channel as nat;
    HitLeads(s.index, want);
    SameLists(s.index, Apply(s, probe).index, m);
  }

  lemma PeekRun(s1: State, steps: seq<Step>, m: Message)
    requires Inv(s1) && Shaped(s1.index) && Leads(s1.index, m) && CanRun(s1, steps)
    requires Enabled(Run(s1, steps), PostNext) && Run(s1, steps).batch[0].body == RecvBody(Exactly(m.tag), None)
    requires AsksRightList(Run(s1, steps).batch[0])
    ensures var e := Run(s1, steps);
            var given := DoPostNext(e).index.given;
            (e.batch[0].ticket in given && given[e.batch[0].ticket] == m) <==> NobodyTakes(s1, steps, m)
  {
    hide Inv, Leads, Present, Takes, NobodyTakes, CanRun, Run, Exactly;
    RunInv(s1, steps);
    LeadsUntilTaken(s1, steps, m);
    ExactReceiveGiven(Run(s1, steps), m);
  }

  /** clh_request_recv on the probe's own request asks for exactly that
      message's tag, with the message's fields and still in the probe pool. */
  lemma PeekedRequestAsks(s: State, channel: bv32, want: Selector, left: Fields)
    requires Enabled(s, Probe(channel, want, false, left)) && HasMatch(s.index.lists[channel as nat], want)
    ensures var m := s.index.lists[channel as nat][FirstMatch(s.index.lists[channel as nat], want)];
            var s1 := Apply(s, Probe(channel, want, false, left));
            && |s1.user| == |s.user| + 1 && Enabled(s1, RequestRecv(|s.user|))
            && (var q := Apply(s1, RequestRecv(|s.user|)).recvQ;
                && |q| == |s.recvQ| + 1 && Last(q).kind == ProbeKind
                && Last(q).body == RecvBody(Exactly(m.tag), None) && Last(q).fields == DecodeTag(m.tag))
  {
    hide TagMatches, OneChannel, DecodeTag, FirstMatch, AfterNew, NodeFor, Exactly;
  }
}
