/** What the entry points ask for, in terms of their arguments (clh.c:549-685). */
module Calls {
  import opened Protocol
  import opened Sequences
  import opened Matching
  import opened Engine

  // ----- what the arguments mean -----

  /** The arguments of clh_recv and clh_probe, or of clh_recv_from and
      clh_probe_source. */
  datatype Ask =
    | Any(channel: bv32, tag: bv32, tagMask: bv32)
    | From(channel: bv32, source: bv32, tag: bv32, tagMask: bv32)

  /** They fit the fields of a tag. */
  predicate Fits(ask: Ask) {
    ask.channel < 0x100 && (ask.From? ==> ask.source < 0x100_0000)
  }

  /** A message with these fields is asked for. */
  predicate Meets(ask: Ask, f: Fields) {
    && f.channel == ask.channel && f.senderTag & ask.tagMask == ask.tag & ask.tagMask
    && (ask.From? ==> f.senderId == ask.source)
  }

  function Selecting(ask: Ask): Selector {
    match ask
    case Any(channel, tag, tagMask) => AnySource(channel, tag, tagMask)
    case From(channel, source, tag, tagMask) => FromSource(channel, source, tag, tagMask)
  }

  lemma AnySound(channel: bv32, tag: bv32, tagMask: bv32, full: bv64)
    requires channel < 0x100 && TagMatches(full, AnySource(channel, tag, tagMask))
    ensures Meets(Any(channel, tag, tagMask), DecodeTag(full))
  {
    hide TagMatches, DecodeTag, AnySource;
    AnySourceSound(full, channel, tag, tagMask);
  }

  lemma AnyComplete(channel: bv32, tag: bv32, tagMask: bv32, full: bv64)
    requires channel < 0x100 && Meets(Any(channel, tag, tagMask), DecodeTag(full))
    ensures TagMatches(full, AnySource(channel, tag, tagMask))
  {
    hide TagMatches, DecodeTag, AnySource;
    AnySourceComplete(full, channel, tag, tagMask);
  }

  lemma FromSound(channel: bv32, source: bv32, tag: bv32, tagMask: bv32, full: bv64)
    requires channel < 0x100 && source < 0x100_0000 && TagMatches(full, FromSource(channel, source, tag, tagMask))
    ensures Meets(From(channel, source, tag, tagMask), DecodeTag(full))
  {
    hide TagMatches, DecodeTag, FromSource;
    FromSourceSound(full, channel, source, tag, tagMask);
  }

  lemma FromComplete(channel: bv32, source: bv32, tag: bv32, tagMask: bv32, full: bv64)
    requires channel < 0x100 && source < 0x100_0000
    requires Meets(From(channel, source, tag, tagMask), DecodeTag(full))
    ensures TagMatches(full, FromSource(channel, source, tag, tagMask))
  {
    hide TagMatches, DecodeTag, FromSource;
    FromSourceComplete(full, channel, source, tag, tagMask);
  }

  lemma SelectingMeans(ask: Ask, full: bv64)
    requires Fits(ask)
    ensures TagMatches(full, Selecting(ask)) ==> Meets(ask, DecodeTag(full))
    ensures Meets(ask, DecodeTag(full)) ==> TagMatches(full, Selecting(ask))
  {
    hide TagMatches, DecodeTag, AnySource, FromSource, Meets;
    match ask
    case Any(channel, tag, tagMask) =>
      if TagMatches(full, Selecting(ask)) {
        AnySound(channel, tag, tagMask, full);
      } else if Meets(ask, DecodeTag(full)) {
        AnyComplete(channel, tag, tagMask, full);
      }
    case From(channel, source, tag, tagMask) =>
      if TagMatches(full, Selecting(ask)) {
        FromSound(channel, source, tag, tagMask, full);
      } else if Meets(ask, DecodeTag(full)) {
        FromComplete(channel, source, tag, tagMask, full);
      }
  }

  /** The selector accepts just the messages that are asked for. */
  ghost predicate AsksFor(want: Selector, ask: Ask) {
    Fits(ask) ==> forall full: bv64 :: TagMatches(full, want) <==> Meets(ask, DecodeTag(full))
  }

  lemma SelectingAsks(ask: Ask)
    ensures AsksFor(Selecting(ask), ask)
  {
    hide TagMatches, DecodeTag, Selecting, Meets;
    if Fits(ask) {
      forall full: bv64
        ensures TagMatches(full, Selecting(ask)) <==> Meets(ask, DecodeTag(full))
      {
        SelectingMeans(ask, full);
      }
    }
  }

  // ----- what each call leaves behind -----

  /** The request of a send by node `me`, wherever it is. */
  ghost predicate SendsIt(r: Request, channel: bv32, me: bv32, dest: bv32, tag: bv32) {
    && r.kind == SendKind && r.fields == Fields(channel, me, tag) && r.body.SendBody? && r.body.dest == dest
    && (channel < 0x100 && me < 0x100_0000 ==> DecodeTag(r.body.sendTag) == Fields(channel, me, tag))
  }

  /** What clh_send leaves in its queue. */
  ghost predicate SendFor(r: Request, channel: bv32, me: bv32, dest: bv32, tag: bv32) {
    SendsIt(r, channel, me, dest, tag) && !r.completed
  }

  lemma SendLeaves(s: State, channel: bv32, me: bv32, dest: bv32, tag: bv32)
    ensures var s' := DoSend(s, channel, me, dest, tag);
            && |s'.sendQ| == |s.sendQ| + 1 && s'.sendQ[..|s.sendQ|] == s.sendQ
            && SendFor(Last(s'.sendQ), channel, me, dest, tag) && Last(s'.sendQ).ticket == s.tickets
  {
    hide AfterNew, NodeFor, DecodeTag, EncodeTag;
    DecodeEncode(channel, me, tag);
  }

  /** What clh_recv_ leaves in its queue: a request that waits for `want` and
      owns no message; its channel, source and tag are what its node held. */
  ghost predicate Waits(r: Request, want: Selector, left: Fields) {
    r.kind == RecvKind && !r.completed && r.fields == left && r.body == RecvBody(want, None)
  }

  lemma RecvLeaves(s: State, want: Selector, left: Fields)
    ensures var s' := DoRecv(s, want, left);
            && |s'.recvQ| == |s.recvQ| + 1 && s'.recvQ[..|s.recvQ|] == s.recvQ
            && Waits(Last(s'.recvQ), want, left) && Last(s'.recvQ).ticket == s.tickets
  {
    hide AfterNew, NodeFor;
  }

  /** The same in terms of the arguments. */
  ghost predicate RecvFor(r: Request, ask: Ask, left: Fields) {
    && r.kind == RecvKind && !r.completed && r.fields == left
    && r.body.RecvBody? && r.body.msg == None && AsksFor(r.body.want, ask)
  }

  lemma WaitsFor(r: Request, ask: Ask, left: Fields)
    requires Waits(r, Selecting(ask), left)
    ensures RecvFor(r, ask, left)
  {
    hide Selecting, AsksFor;
    SelectingAsks(ask);
  }

  /** Position i holds the first message that is asked for. */
  ghost predicate IsFirst(list: seq<Message>, ask: Ask, i: nat) {
    && i < |list| && Meets(ask, DecodeTag(list[i].tag))
    && forall j | 0 <= j < i :: !Meets(ask, DecodeTag(list[j].tag))
  }

  /** A message in the list is asked for. */
  ghost predicate IsThere(list: seq<Message>, ask: Ask) {
    exists m :: m in list && Meets(ask, DecodeTag(m.tag))
  }

  /** What a probe's request says of m. */
  ghost predicate Shows(r: Request, m: Message)
    requires r.body.ProbeBody?
  {
    r.body.found == Some(m) && r.body.senderTag == m.tag && r.body.bufferLen == m.len && r.fields == DecodeTag(m.tag)
  }

  /** The request of a probe of this list: a hit exactly when something that is
      asked for is there, and then it shows the first. */
  ghost predicate ProbeFor(r: Request, list: seq<Message>, ask: Ask, remove: bool, left: Fields) {
    && r.kind == ProbeKind && r.completed && r.body.ProbeBody? && r.body.remove == remove
    && (r.body.result <==> IsThere(list, ask))
    && (r.body.result ==> exists i: nat :: IsFirst(list, ask, i) && Shows(r, list[i]))
    && (!r.body.result ==> r.body.found == None && r.fields == left)
  }

  /** The list after a probe. */
  ghost predicate ListAfter(list: seq<Message>, list': seq<Message>, ask: Ask, remove: bool) {
    && (remove && IsThere(list, ask) ==> exists i: nat :: IsFirst(list, ask, i) && list' == Without(list, i))
    && (!remove || !IsThere(list, ask) ==> list' == list)
  }

  /** What clh_probe_ writes, searching the list for `want`. */
  ghost predicate Answers(r: Request, list: seq<Message>, want: Selector, remove: bool, left: Fields) {
    && r.kind == ProbeKind && r.completed && r.body.ProbeBody? && r.body.remove == remove
    && r.body.sought == want
    && (r.body.result <==> exists m :: m in list && TagMatches(m.tag, want))
    && (r.body.result ==>
          exists i: nat :: i < |list| && TagMatches(list[i].tag, want) && Shows(r, list[i])
                           && forall j | 0 <= j < i :: !TagMatches(list[j].tag, want))
    && (!r.body.result ==> r.body.found == None && r.fields == left)
  }

  lemma ProbedAnswers(n: nat, list: seq<Message>, want: Selector, remove: bool, left: Fields, ticket: nat)
    ensures Answers(Probed(n, list, want, remove, left, ticket), list, want, remove, left)
  {
    hide DecodeTag, TagMatches;
    NoMatchIn(list, want);
    if HasMatch(list, want) {
      assert list[FirstMatch(list, want)] in list;
    }
  }

  lemma ProbeLeaves(s: State, channel: bv32, want: Selector, remove: bool, left: Fields)
    requires Shaped(s.index) && channel < 0x100
    ensures var s' := DoProbe(s, channel, want, remove, left);
            && |s'.user| == |s.user| + 1 && s'.user[..|s.user|] == s.user
            && Answers(Last(s'.user), s.index.lists[channel as nat], want, remove, left)
  {
    hide Answers, FirstMatch, HasMatch, AfterNew, NodeFor, Probed, Take;
    ProbedAnswers(NodeFor(s, ProbeKind), s.index.lists[channel as nat], want, remove, left, s.tickets);
  }

  lemma AnswersAsk(r: Request, list: seq<Message>, ask: Ask, remove: bool, left: Fields)
    requires Fits(ask) && Answers(r, list, Selecting(ask), remove, left)
    ensures ProbeFor(r, list, ask, remove, left)
  {
    hide DecodeTag, TagMatches, Selecting, Meets, Shows;
    SelectingAsks(ask);
    if r.body.result {
      var i: nat :| i < |list| && TagMatches(list[i].tag, Selecting(ask)) && Shows(r, list[i])
                    && forall j | 0 <= j < i :: !TagMatches(list[j].tag, Selecting(ask));
      assert IsFirst(list, ask, i);
    }
  }

  lemma FirstFits(list: seq<Message>, ask: Ask)
    requires Fits(ask)
    ensures HasMatch(list, Selecting(ask)) <==> IsThere(list, ask)
    ensures HasMatch(list, Selecting(ask)) ==> IsFirst(list, ask, FirstMatch(list, Selecting(ask)))
  {
    hide TagMatches, DecodeTag, Selecting, Meets;
    SelectingAsks(ask);
    NoMatchIn(list, Selecting(ask));
  }

  /** A probe takes out what it has found if it is to remove it, and nothing else. */
  lemma ProbeTakes(s: State, ask: Ask, remove: bool, left: Fields)
    requires Shaped(s.index) && Fits(ask)
    ensures var c, x, x' := ask.channel as nat, s.index, DoProbe(s, ask.channel, Selecting(ask), remove, left).index;
            |x'.lists| == MAX_CHANNELS && ListAfter(x.lists[c], x'.lists[c], ask, remove)
            && x' == x.(lists := x.lists[c := x'.lists[c]])
  {
    hide Selecting, ListAfter, FirstMatch, HasMatch, AfterNew, NodeFor, Probed, Take;
    TakenFromList(s.index, ask.channel as nat, ask, remove);
  }

  lemma TakenFromList(x: Index, c: nat, ask: Ask, remove: bool)
    requires Shaped(x) && c < MAX_CHANNELS && Fits(ask)
    ensures var want := Selecting(ask);
            var x' := if HasMatch(x.lists[c], want) && remove then Take(x, c, want) else x;
            && |x'.lists| == MAX_CHANNELS && ListAfter(x.lists[c], x'.lists[c], ask, remove)
            && x' == x.(lists := x.lists[c := x'.lists[c]])
  {
    hide Selecting, FirstMatch, IsThere, IsFirst;
    FirstFits(x.lists[c], ask);
  }

  /** The receive that a probe's hit is made: exactly the probed tag, and the
      message itself if the probe has removed it. */
  ghost predicate ReceiveOf(r: Request, r': Request)
    requires r.body.ProbeBody?
  {
    && r'.node == r.node && r'.kind == r.kind && !r'.completed && r'.fields == r.fields && r'.body.RecvBody?
    && (forall full: bv64 :: TagMatches(full, r'.body.want) <==> full == r.body.senderTag)
    && r'.body.msg == if r.body.remove then r.body.found else None
  }

  lemma RequestRecvLeaves(s: State, i: nat)
    requires i < |s.user| && s.user[i].body.ProbeBody?
    ensures var s' := DoRequestRecv(s, i);
            && s'.user == Without(s.user, i) && |s'.recvQ| == |s.recvQ| + 1 && s'.recvQ[..|s.recvQ|] == s.recvQ
            && ReceiveOf(s.user[i], Last(s'.recvQ)) && Last(s'.recvQ).ticket == s.tickets
  {
    hide TagMatches, Exactly;
    var tag := s.user[i].body.senderTag;
    forall full: bv64
      ensures TagMatches(full, Exactly(tag)) <==> full == tag
    {
      ExactlyMeaning(full, tag);
    }
  }
}
