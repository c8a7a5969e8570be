/** Over every run, the lists-and-transport index behaves as one arrival-ordered
    first-match queue, and no receive waits while a message for it is there. */
module Refinement {
  import opened Protocol
  import opened Sequences
  import opened Matching
  import opened Engine
  import opened Delivery

  /** What a step means to the one queue. */
  datatype Label =
    | LArrive(m: Message)
    | LPost(ticket: nat, want: Selector)   // a receive that takes the first match or waits
    | LGive(ticket: nat, m: Message)       // a receive of a message taken earlier
    | LTake(want: Selector, m: Message)    // a removing probe that hits m
    | LSilent

  function LabelOf(s: State, step: Step): Label
    requires Enabled(s, step)
  {
    match step
    case Arrival(m) => LArrive(m)
    case Probe(channel, want, remove, _) =>
      var list := s.index.lists[channel as nat];
      if remove && HasMatch(list, want) then LTake(want, list[FirstMatch(list, want)]) else LSilent
    case PostNext =>
      (match s.batch[0].body.msg
       case Some(m) => LGive(s.batch[0].ticket, m)
       case None => LPost(s.batch[0].ticket, s.batch[0].body.want))
    case _ => LSilent
  }

  /** The one queue admits the label: a take must hit its own first match. */
  predicate QAllows(q: Queue, l: Label) {
    l.LTake? ==> HasMatch(q.waiting, l.want) && q.waiting[FirstMatch(q.waiting, l.want)] == l.m
  }

  function QMove(q: Queue, l: Label): Queue
    requires QAllows(q, l)
  {
    match l
    case LArrive(m) => QArrive(q, m)
    case LPost(ticket, want) => QPost(q, ticket, want)
    case LGive(ticket, m) => QGive(q, ticket, m)
    case LTake(want, _) => QTake(q, want)
    case LSilent => q
  }

  predicate QCanRun(q: Queue, labels: seq<Label>)
    decreases |labels|
  {
    labels != [] ==> QAllows(q, labels[0]) && QCanRun(QMove(q, labels[0]), labels[1..])
  }

  function QRun(q: Queue, labels: seq<Label>): Queue
    requires QCanRun(q, labels)
    decreases |labels|
  {
    if labels == [] then q else QRun(QMove(q, labels[0]), labels[1..])
  }

  function LabelsOf(s: State, steps: seq<Step>): seq<Label>
    requires CanRun(s, steps)
    decreases |steps|
  {
    if steps == [] then [] else [LabelOf(s, steps[0])] + LabelsOf(Apply(s, steps[0]), steps[1..])
  }

  // ----- the channel a receive is looked up by -----

  /** The request holds the channel of the tag it asks for. clh_recv_ does not
      write it (clh.c:580-585); a request that came from a probe does hold it. */
  predicate RightChannel(r: Request)
    requires r.body.RecvBody?
  {
    r.fields.channel == DecodeTag(r.body.want.tag).channel
  }

  /** The step looks up no receive in a wrong list while the right list holds
      its message. */
  predicate Harmless(s: State, step: Step)
    requires Enabled(s, step)
  {
    step.PostNext? ==>
      var r := s.batch[0];
      r.body.msg.Some? || RightChannel(r) || !HasMatch(s.index.lists[Chan(r.body.want.tag)], r.body.want)
  }

  predicate HarmlessRun(s: State, steps: seq<Step>)
    requires CanRun(s, steps)
    decreases |steps|
  {
    steps != [] ==> Harmless(s, steps[0]) && HarmlessRun(Apply(s, steps[0]), steps[1..])
  }

  /** Every queued receive holds the right channel. */
  ghost predicate AllRight(s: State) {
    && (forall r | r in s.recvQ :: r.body.RecvBody? && RightChannel(r))
    && (forall r | r in s.batch :: r.body.RecvBody? && RightChannel(r))
  }

  lemma AllRightKept(s: State, step: Step)
    requires Enabled(s, step) && Typed(s) && AllRight(s)
    requires step.Recv? ==> step.left.channel == DecodeTag(step.want.tag).channel
    ensures AllRight(Apply(s, step))
  {
    hide DecodeTag, EncodeTag, HasMatch, FirstMatch, Probed, Take, FreeOf, WithFree, NodeFor, Post, Matched, Pull,
      OneChannel, Filed, AfterNew, Exactly;
    match step
    case RequestRecv(i) =>
      assert s.user[i] in s.user;
      ExactlyOneChannel(s.user[i].body.senderTag);
    case _ =>
  }

  lemma RightIsHarmless(s: State, step: Step)
    requires Enabled(s, step) && AllRight(s)
    ensures Harmless(s, step)
  {
    hide RightChannel, HasMatch, Chan;
    if step.PostNext? { assert s.batch[0] in s.batch; }
  }

  lemma WrongListHasNoMatch(x: Index, c: nat, want: Selector)
    requires Shaped(x) && Filed(x) && c < MAX_CHANNELS && OneChannel(want) && c != Chan(want.tag)
    ensures !HasMatch(x.lists[c], want)
  {
    hide Chan, OneChannel, FirstMatch;
    if HasMatch(x.lists[c], want) {
      var m := x.lists[c][FirstMatch(x.lists[c], want)];
      assert m in x.lists[c];
      MatchesStayOnChannel(m.tag, want);
    }
  }

  /** Searching a list without a match is searching any other such list. */
  lemma NoListMatters(x: Index, ticket: nat, c: nat, want: Selector)
    requires Shaped(x) && Filed(x) && c < MAX_CHANNELS && OneChannel(want)
    requires c == Chan(want.tag) || !HasMatch(x.lists[Chan(want.tag)], want)
    ensures Post(x, ticket, c, want) == Post(x, ticket, Chan(want.tag), want)
  {
    hide Chan, OneChannel, FirstMatch, HasMatch;
    if c != Chan(want.tag) { WrongListHasNoMatch(x, c, want); }
  }

  lemma PostNextRefines(s: State, q: Queue)
    requires Enabled(s, PostNext) && Typed(s) && Refines(s.index, q) && Harmless(s, PostNext)
    ensures QAllows(q, LabelOf(s, PostNext))
    ensures Refines(DoPostNext(s).index, QMove(q, LabelOf(s, PostNext)))
  {
    hide TagMatches, OneChannel, DecodeTag, Matched, HasMatch, FirstMatch, Post, QPost, Filed;
    var r := s.batch[0];
    assert r in s.batch;
    if r.body.msg == None {
      NoListMatters(s.index, r.ticket, r.fields.channel as nat, r.body.want);
      PostRefines(s.index, q, r.ticket, r.body.want);
    }
  }

  lemma ProbeRefines(s: State, channel: bv32, want: Selector, remove: bool, left: Fields, q: Queue)
    requires Enabled(s, Probe(channel, want, remove, left)) && Refines(s.index, q)
    ensures QAllows(q, LabelOf(s, Probe(channel, want, remove, left)))
    ensures Refines(DoProbe(s, channel, want, remove, left).index,
                    QMove(q, LabelOf(s, Probe(channel, want, remove, left))))
  {
    hide TagMatches, OneChannel, DecodeTag, Refines, Take, QTake, FreeOf, WithFree, NodeFor, Probed, AfterNew;
    assert Chan(want.tag) == channel as nat;
    if remove && HasMatch(s.index.lists[channel as nat], want) {
      TakeRefines(s.index, q, want);
    }
  }

  lemma StepRefines(s: State, step: Step, q: Queue)
    requires Enabled(s, step) && Typed(s) && Refines(s.index, q) && Harmless(s, step)
    ensures QAllows(q, LabelOf(s, step))
    ensures Refines(Apply(s, step).index, QMove(q, LabelOf(s, step)))
  {
    hide TagMatches, OneChannel, DecodeTag, DoPostNext, Refines, Typed, Arrive, QArrive, Take, QTake, Pull,
      FreeOf, WithFree, NodeFor, Probed, Harmless, DoProbe, HasMatch;
    match step
    case Arrival(m) => ArriveRefines(s.index, q, m);
    case PullOne => PullRefines(s.index, q);
    case PostNext => PostNextRefines(s, q);
    case Probe(channel, want, remove, left) => ProbeRefines(s, channel, want, remove, left, q);
    case _ =>
  }

  // ----- no missed match -----

  /** No waiting receive accepts an untaken message. */
  ghost predicate NoMissedMatch(q: Queue) {
    forall p, m | p in q.posted && m in q.waiting :: !TagMatches(m.tag, p.want)
  }

  lemma NoMissedMatchKept(q: Queue, l: Label)
    requires QAllows(q, l) && NoMissedMatch(q)
    ensures NoMissedMatch(QMove(q, l))
  {
    hide TagMatches;
    match l
    case LArrive(m) =>
      var i := FirstTaker(q.posted, m);
      if i < |q.posted| { WithoutMembers(q.posted, i); }
    case LPost(_, want) =>
      var i := FirstMatch(q.waiting, want);
      if i < |q.waiting| { WithoutMembers(q.waiting, i); }
    case LTake(want, _) => WithoutMembers(q.waiting, FirstMatch(q.waiting, want));
    case _ =>
  }

  /** Seen in the implementation: no receive posted to the transport accepts a
      message in any list or still unexpected. */
  ghost predicate NothingMissed(x: Index) {
    forall p | p in x.posted ::
      && (forall m | m in x.unexpected :: !TagMatches(m.tag, p.want))
      && (forall c, m | 0 <= c < |x.lists| && m in x.lists[c] :: !TagMatches(m.tag, p.want))
  }

  lemma AllWaiting(x: Index, q: Queue)
    requires Refines(x, q)
    ensures forall m | m in x.unexpected :: m in q.waiting
    ensures forall c, m | 0 <= c < |x.lists| && m in x.lists[c] :: m in q.waiting && Chan(m.tag) == c
  {
    hide Chan;
    forall m | m in x.unexpected
      ensures m in q.waiting
    {
      var c := Chan(m.tag);
      OnChannelMembers(x.unexpected, c);
      OnChannelMembers(q.waiting, c);
      assert m in x.lists[c] + OnChannel(x.unexpected, c);
    }
    forall c, m | 0 <= c < |x.lists| && m in x.lists[c]
      ensures m in q.waiting && Chan(m.tag) == c
    {
      OnChannelMembers(q.waiting, c);
      assert m in x.lists[c] + OnChannel(x.unexpected, c);
    }
  }

  lemma NothingMissedHere(x: Index, q: Queue)
    requires Refines(x, q) && NoMissedMatch(q)
    ensures NothingMissed(x)
  {
    hide TagMatches;
    AllWaiting(x, q);
  }

  // ----- runs -----

  /** From related states, every harmless run is a run of the one queue on the
      same arrivals, receives and takes, ending in related states. */
  lemma {:induction false} RunRefines(s: State, steps: seq<Step>, q: Queue)
    requires CanRun(s, steps) && Typed(s) && Refines(s.index, q) && NoMissedMatch(q) && HarmlessRun(s, steps)
    ensures QCanRun(q, LabelsOf(s, steps))
    ensures Refines(Run(s, steps).index, QRun(q, LabelsOf(s, steps)))
    ensures NothingMissed(Run(s, steps).index)
    decreases |steps|
  {
    hide Apply, Enabled, Typed, Refines, LabelOf, QMove, NoMissedMatch, NothingMissed, Harmless;
    if steps == [] {
      NothingMissedHere(s.index, q);
    } else {
      var step, s' := steps[0], Apply(s, steps[0]);
      var l := LabelOf(s, step);
      StepRefines(s, step, q);
      TypedKept(s, step);
      NoMissedMatchKept(q, l);
      RunRefines(s', steps[1..], QMove(q, l));
      var ls := LabelsOf(s, steps);
      assert ls[0] == l && ls[1..] == LabelsOf(s', steps[1..]);
    }
  }
}
