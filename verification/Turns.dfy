/** What a whole turn of the worker loop does (clh.c:401-430), said of the
    states before and after it, without the passes that it is made of. */
module Turns {
  import opened Protocol
  import opened Sequences
  import opened Matching
  import opened Engine
  import opened Conservation
  import opened Delivery
  import opened Messages
  import opened Invariant
  import opened Passes
  import S = StaleChannel

  // ----- what is claimed -----

  /** What is left of a queue of n sends when `room` of them get through. */
  function Remaining(n: nat, room: int): nat {
    if room <= 0 then n else if n <= room then 0 else n - room
  }

  /** One of these receives has been given m. */
  ghost predicate GivenAmong(x: Index, recvs: seq<Request>, m: Message) {
    exists r :: r in recvs && r.ticket in x.given && x.given[r.ticket] == m
  }

  /** The oldest unexpected message has left the transport: it is in the list of
      its channel, or one of the receives handed over has been given it. With
      no receive to hand over, it ends its list and nothing else has moved. */
  ghost predicate Stored(x: Index, x': Index, recvs: seq<Request>)
    requires Shaped(x) && Shaped(x')
  {
    && (x.unexpected != [] ==>
          var m := x.unexpected[0];
          && m !in x'.unexpected
          && (m in x'.lists[Chan(m.tag)] || GivenAmong(x', recvs, m))
          && (recvs == [] ==>
                && x'.unexpected == x.unexpected[1..] && x'.posted == x.posted && x'.given == x.given
                && x'.lists == x.lists[Chan(m.tag) := x.lists[Chan(m.tag)] + [m]]))
    && (x.unexpected == [] && recvs == [] ==> x' == x)
  }

  /** r' is the request r, further on: a send is as it was, and a receive asks
      for what it asked for. */
  ghost predicate SameJob(r: Request, r': Request) {
    && r'.ticket == r.ticket && r'.node == r.node && r'.kind == r.kind
    && (r.body.SendBody? ==> r'.body == r.body && r'.fields == r.fields)
    && (r.body.RecvBody? ==> r'.body.RecvBody? && r'.body.want == r.body.want)
  }

  ghost predicate GoesOn(r: Request, q: seq<Request>) {
    exists r' :: r' in q && SameJob(r, r')
  }

  function RequestsOf(log: seq<Completion>): seq<Request> {
    seq(|log|, i requires 0 <= i < |log| => log[i].request)
  }

  /** The transport can finish the request: any send, and a receive that has
      been given its message. */
  predicate Done(x: Index, r: Request) {
    r.body.SendBody? || r.ticket in x.given
  }

  /** Of the requests in progress, `finish` and nothing else is completed, as far
      as it can be; the user has the completed requests, in order. */
  ghost predicate Collected(s: State, s': State, jobs: seq<Request>, finish: set<nat>) {
    && s.log <= s'.log && s'.user == s.user + RequestsOf(s'.log[|s.log|..])
    && (forall r | r in jobs :: GoesOn(r, s'.ops) || GoesOn(r, RequestsOf(s'.log[|s.log|..])))
    && (forall r | r in s'.ops :: r.ticket !in finish || !Done(s'.index, r))
    && (forall c | c in s'.log[|s.log|..] ::
          c.request.completed && c.request.ticket in finish && Done(s'.index, c.request))
  }

  /** One turn, in which the transport finishes what it can of `finish`. */
  ghost predicate TurnDid(s: State, s': State, finish: set<nat>) {
    var k := Remaining(|s.sendQ|, 1024 - s.sendCount);
    && Shaped(s.index) && Shaped(s'.index) && k <= |s.sendQ|
    && Stored(s.index, s'.index, s.recvQ)
    && s'.sendQ == s.sendQ[..k] && s'.recvQ == [] && s'.batch == []
    && Collected(s, s', s.ops + s.sendQ[k..] + s.recvQ, finish)
    && s'.run == s.run && s'.exited == s.exited && s'.home == s.home && s'.free == s.free
    && s'.arrived == s.arrived && s'.dropped == s.dropped && s'.tickets == s.tickets
  }

  // ----- sends -----

  function Reversed<T>(q: seq<T>): seq<T> {
    seq(|q|, i requires 0 <= i < |q| => q[|q| - 1 - i])
  }

  /** As many sends as fit the window of 1024 leave the tail of the queue, last
      in first out, and nothing else changes. */
  lemma {:induction false} SendPassMoves(s: State)
    ensures var k := Remaining(|s.sendQ|, 1024 - s.sendCount);
            k <= |s.sendQ| && SendPass(s) == s.(sendQ := s.sendQ[..k], ops := s.ops + Reversed(s.sendQ[k..]),
                                               sendCount := s.sendCount + |s.sendQ| - k)
    decreases |s.sendQ|
  {
    hide Reversed;
    var k := Remaining(|s.sendQ|, 1024 - s.sendCount);
    if s.sendQ == [] || s.sendCount >= SEND_WINDOW {
      NothingReversed(s.ops, s.sendQ, k);
    } else {
      SendPassMoves(DoSubmitSend(s));
      LastFirst(s.ops, s.sendQ, k);
    }
  }

  lemma NothingReversed<T>(ops: seq<T>, q: seq<T>, k: nat)
    requires k == |q|
    ensures q[..k] == q && ops + Reversed(q[k..]) == ops
  {
  }

  lemma LastFirst<T>(ops: seq<T>, q: seq<T>, k: nat)
    requires k < |q|
    ensures DropLast(q)[..k] == q[..k]
    ensures ops + [Last(q)] + Reversed(DropLast(q)[k..]) == ops + Reversed(q[k..])
  {
    assert [Last(q)] + Reversed(DropLast(q)[k..]) == Reversed(q[k..]);
  }

  lemma ReversedMembers<T>(q: seq<T>)
    ensures forall e | e in q :: e in Reversed(q)
  {
    forall e | e in q
      ensures e in Reversed(q)
    {
      var i :| 0 <= i < |q| && q[i] == e;
      assert Reversed(q)[|q| - 1 - i] == e;
    }
  }

  // ----- receives -----

  lemma MatchedSame(r: Request, x: Index)
    requires Shaped(x) && r.body.RecvBody? && r.fields.channel < 0x100
    ensures SameJob(r, Matched(r, x))
  {
    hide DecodeTag, HasMatch, FirstMatch;
  }

  lemma TurnParts(s: State)
    requires Enabled(s, PostNext)
    ensures var r, s' := s.batch[0], DoPostNext(s);
            s' == s.(batch := s.batch[1..], ops := s.ops + [Matched(r, s.index)], index := s'.index)
    ensures Shaped(DoPostNext(s).index)
  {
    hide Matched, Post;
  }

  lemma GoesOnIn(r: Request, r': Request, q: seq<Request>)
    requires r' in q && SameJob(r, r')
    ensures GoesOn(r, q)
  {
  }

  /** The detached receives end the operations; apart from these and the index
      nothing changes. */
  lemma {:induction false} PostAllMoves(s: State)
    requires Typed(s) && InBounds(s) && !s.exited
    ensures var s' := PostAll(s);
            && s' == s.(batch := [], ops := s'.ops, index := s'.index) && s.ops <= s'.ops
            && forall r | r in s.batch :: GoesOn(r, s'.ops)
    decreases |s.batch|
  {
    hide Typed, InBounds, DoPostNext, Matched, SameJob, GoesOn, Enabled;
    if s.batch != [] {
      CanPost(s);
      PostNextTyped(s);
      PostNextInBounds(s);
      var r, s1 := s.batch[0], DoPostNext(s);
      PostNextAsks(s);
      TurnParts(s);
      PostAllMoves(s1);
      MatchedSame(r, s.index);
      assert Last(s1.ops) == Matched(r, s.index) && Last(s1.ops) in PostAll(s1).ops;
      GoesOnIn(r, Matched(r, s.index), PostAll(s).ops);
    }
  }

  lemma PostNextAsks(s: State)
    requires Enabled(s, PostNext)
    ensures Shaped(s.index) && s.batch[0].body.RecvBody? && s.batch[0].fields.channel < 0x100
  {
  }

  // ----- the pulled message -----

  /** m is in its list, or one of these receives has it. */
  ghost predicate Held(x: Index, recvs: seq<Request>, m: Message)
    requires Shaped(x)
  {
    m !in x.unexpected && (m in x.lists[Chan(m.tag)] || GivenAmong(x, recvs, m))
  }

  lemma InWithout<T>(q: seq<T>, i: nat, e: T)
    requires i < |q| && e in q
    ensures e == q[i] || e in Without(q, i)
  {
    var j :| 0 <= j < |q| && q[j] == e;
    assert j != i ==> Without(q, i)[if j < i then j else j - 1] == e;
  }

  lemma PostHolds(x: Index, r: Request, c: nat, want: Selector, recvs: seq<Request>, m: Message)
    requires Shaped(x) && c < MAX_CHANNELS && Held(x, recvs, m) && r in recvs && r.ticket !in x.given
    ensures Held(Post(x, r.ticket, c, want), recvs, m)
  {
    hide TagMatches, FirstMatch, Chan;
    var x' := Post(x, r.ticket, c, want);
    if HasMatch(x.lists[c], want) {
      var i := FirstMatch(x.lists[c], want);
      assert x'.given == x.given[r.ticket := x.lists[c][i]];
      if m in x.lists[c] { InWithout(x.lists[c], i, m); }
    } else if FirstMatch(x.unexpected, want) < |x.unexpected| {
      WithoutMembers(x.unexpected, FirstMatch(x.unexpected, want));
    }
  }

  lemma GiveHolds(x: Index, r: Request, m': Message, recvs: seq<Request>, m: Message)
    requires Shaped(x) && Held(x, recvs, m) && r.ticket !in x.given
    ensures Held(Give(x, r.ticket, m'), recvs, m)
  {
    hide Chan;
  }

  lemma PostNextHolds(s: State, recvs: seq<Request>, m: Message)
    requires Inv(s) && Enabled(s, PostNext) && Held(s.index, recvs, m) && s.batch[0] in recvs
    ensures Shaped(DoPostNext(s).index) && Held(DoPostNext(s).index, recvs, m)
  {
    hide Inv, Held, Post, Matched;
    var r := s.batch[0];
    S.HeadFreshHere(s);
    match r.body.msg
    case Some(m') => GiveHolds(s.index, r, m', recvs, m);
    case None => PostHolds(s.index, r, r.fields.channel as nat, r.body.want, recvs, m);
  }

  lemma {:induction false} PostAllHolds(s: State, recvs: seq<Request>, m: Message)
    requires Inv(s) && Typed(s) && InBounds(s) && !s.exited && Shaped(s.index) && Held(s.index, recvs, m)
    requires forall r | r in s.batch :: r in recvs
    ensures Shaped(PostAll(s).index) && Held(PostAll(s).index, recvs, m)
    decreases |s.batch|
  {
    hide Inv, Typed, InBounds, Held, DoPostNext, Enabled;
    if s.batch != [] {
      CanPost(s);
      PostNextTyped(s);
      PostNextInBounds(s);
      InvKept(s, PostNext);
      PostNextHolds(s, recvs, m);
      TurnParts(s);
      PostAllHolds(DoPostNext(s), recvs, m);
    }
  }

  /** No message is unexpected twice. */
  lemma OnlyOnce(s: State)
    requires Inv(s) && s.index.unexpected != []
    ensures s.index.unexpected[0] !in s.index.unexpected[1..]
  {
    hide Typed, Sum, GivenCount, TicketFacts, LogRight, GivenMatch;
    var u := s.index.unexpected;
    var m := u[0];
    ArrivedOnce(s, m);
    assert MessageCount(s, m) == multiset(s.arrived)[m];
    assert u == [m] + u[1..];
    assert multiset(u)[m] == 1 + multiset(u[1..])[m];
  }

  lemma PullHolds(s: State, recvs: seq<Request>)
    requires Inv(s) && Shaped(s.index) && s.index.unexpected != []
    ensures Held(Pull(s.index), recvs, s.index.unexpected[0])
  {
    hide Inv, Chan;
    OnlyOnce(s);
  }

  // ----- collecting -----

  /** The user gets what the log shows. */
  lemma {:induction false} ScanHands(s: State, done: set<nat>, idx: nat)
    ensures var s' := Scan(s, done, idx);
            s.log <= s'.log && s'.user == s.user + RequestsOf(s'.log[|s.log|..])
    decreases |s.ops| - idx
  {
    hide Finished, MessageOf, SwapRemove;
    if idx < |s.ops| && s.ops[idx].ticket in done {
      var s1 := DoComplete(s, idx);
      SwapRemoveSplit(s.ops, idx);
      ScanHands(s1, done, idx);
      var s' := Scan(s, done, idx);
      assert s'.log[|s.log|..] == [Last(s1.log)] + s'.log[|s1.log|..];
      assert RequestsOf(s'.log[|s.log|..]) == [Last(s1.log).request] + RequestsOf(s'.log[|s1.log|..]);
    } else if idx < |s.ops| {
      ScanHands(s, done, idx + 1);
    } else {
      assert RequestsOf(s.log[|s.log|..]) == [];
    }
  }

  lemma FinishedSame(s: State, r: Request)
    requires r.body.SendBody? ==> r.kind == SendKind
    ensures Finished(s, r).completed && SameJob(r, Finished(s, r))
  {
  }

  /** Every operation stays or is completed, and only `done` is completed. */
  lemma ScanSplits(s: State, done: set<nat>)
    requires forall r | r in s.ops :: r.body.SendBody? ==> r.kind == SendKind
    ensures var s' := Scan(s, done, 0);
            && s.log <= s'.log
            && (forall r | r in s.ops :: r in s'.ops || GoesOn(r, RequestsOf(s'.log[|s.log|..])))
            && (forall r | r in s'.ops :: r in s.ops && r.ticket !in done)
            && forall c | c in s'.log[|s.log|..] ::
                 c.request.completed && exists r :: r in s.ops && r.ticket in done && SameJob(r, c.request)
  {
    hide Finished, MessageOf, Scan, Completing;
    ScanCompletes(s, done, 0);
    var s', q := Scan(s, done, 0), Completing(s.ops, done, 0);
    assert s.ops[0..] == s.ops && s.ops[..0] == [];
    assert s'.log[|s.log|..] == CompletionsOf(s, q);
    forall r | r in s.ops
      ensures r in s'.ops || GoesOn(r, RequestsOf(s'.log[|s.log|..]))
    {
      assert multiset(s.ops)[r] > 0;
      if r.ticket in done {
        CompletesTheFinished(s.ops, done, 0, r);
        assert r in multiset(q);
        var i :| 0 <= i < |q| && q[i] == r;
        FinishedSame(s, r);
        assert RequestsOf(s'.log[|s.log|..])[i] == Finished(s, r);
      } else {
        ScanLeaves(s, done, 0, r);
        assert r in multiset(s'.ops);
      }
    }
    forall r | r in s'.ops
      ensures r in s.ops && r.ticket !in done
    {
      ScanLeaves(s, done, 0, r);
      assert multiset(s'.ops)[r] > 0;
    }
    forall c | c in s'.log[|s.log|..]
      ensures c.request.completed && exists r :: r in s.ops && r.ticket in done && SameJob(r, c.request)
    {
      var i :| 0 <= i < |q| && CompletionsOf(s, q)[i] == c;
      CompletesTheFinished(s.ops, done, 0, q[i]);
      assert q[i] in multiset(q) && q[i] in multiset(s.ops);
      FinishedSame(s, q[i]);
    }
  }

  // ----- the whole turn -----

  lemma LeadsInv(s: State, s': State)
    requires Inv(s) && LeadsTo(s, s', false)
    ensures Inv(s')
  {
    hide Inv, CanRun, Run;
    var steps :| CanRun(s, steps) && Run(s, steps) == s';
    RunInv(s, steps);
  }

  /** Two operations do not share a ticket. */
  lemma OneTicket(s: State, r: Request, r': Request)
    requires TicketsConserved(s) && r in s.ops && r' in s.ops && r.ticket == r'.ticket
    ensures r == r'
  {
    hide Sum;
    var i :| 0 <= i < |s.ops| && s.ops[i] == r;
    var j :| 0 <= j < |s.ops| && s.ops[j] == r';
    if i != j {
      assert TicketCount(s, r.ticket) <= 1;
      var j' := if j < i then j else j - 1;
      assert Without(s.ops, i)[j'] == r';
      SumWithout(s.ops, i, TicketOf);
      SumHas(Without(s.ops, i), j', TicketOf);
    }
  }

  lemma OpShapes(s: State)
    requires Typed(s)
    ensures forall r | r in s.ops :: r.body.SendBody? ==> r.kind == SendKind
  {
  }

  lemma InvParts(s: State)
    requires Inv(s)
    ensures Typed(s) && TicketsConserved(s)
  {
  }

  /** What the scan leaves cannot be finished or is not to be. */
  lemma LeftOver(s: State, finish: set<nat>, r: Request)
    requires TicketsConserved(s) && r in s.ops && r.ticket !in Finishing(s, finish)
    ensures r.ticket !in finish || !Done(s.index, r)
  {
    hide TicketsConserved;
    if r.ticket in finish {
      var r' :| r' in s.ops && r'.ticket == r.ticket && !Ready(s, r');
      OneTicket(s, r, r');
    }
  }

  lemma SameJobOn(r: Request, r': Request, q: seq<Request>)
    requires SameJob(r, r') && GoesOn(r', q)
    ensures GoesOn(r, q)
  {
    var r'' :| r'' in q && SameJob(r', r'');
    assert SameJob(r, r'');
  }

  /** Collecting after the calls of a turn, s4 being the state between. */
  lemma CollectDoes(s: State, s4: State, jobs: seq<Request>, finish: set<nat>)
    requires Typed(s4) && TicketsConserved(s4) && s4.log == s.log && s4.user == s.user
    requires forall r | r in jobs :: GoesOn(r, s4.ops)
    ensures Collected(s, Scan(s4, Finishing(s4, finish), 0), jobs, finish)
  {
    hide Typed, TicketsConserved, Scan, SameJob, Finishing, RequestsOf;
    var done := Finishing(s4, finish);
    var s' := Scan(s4, done, 0);
    OpShapes(s4);
    ScanHands(s4, done, 0);
    ScanSplits(s4, done);
    ScanCompletes(s4, done, 0);
    forall r | r in jobs
      ensures GoesOn(r, s'.ops) || GoesOn(r, RequestsOf(s'.log[|s.log|..]))
    {
      var r' :| r' in s4.ops && SameJob(r, r');
      if r' in s'.ops {
        GoesOnIn(r, r', s'.ops);
      } else {
        SameJobOn(r, r', RequestsOf(s'.log[|s.log|..]));
      }
    }
    forall r | r in s'.ops
      ensures r.ticket !in finish || !Done(s'.index, r)
    {
      LeftOver(s4, finish, r);
    }
    forall c | c in s'.log[|s.log|..]
      ensures c.request.completed && c.request.ticket in finish && Done(s'.index, c.request)
    {
      var r :| r in s4.ops && r.ticket in done && SameJob(r, c.request);
      FinishedIsDone(s4, finish, r, c.request);
    }
  }

  lemma FinishedIsDone(s: State, finish: set<nat>, r: Request, r': Request)
    requires r in s.ops && r.ticket in Finishing(s, finish) && SameJob(r, r')
    ensures r'.ticket in finish && Done(s.index, r')
  {
    assert Ready(s, r);
  }

  /** The three passes of the calls. */
  lemma ServeMoves(s: State)
    requires Between(s)
    ensures var k, s4 := Remaining(|s.sendQ|, 1024 - s.sendCount), ServePass(s);
            && k <= |s.sendQ| && s4 == s.(sendQ := s.sendQ[..k], recvQ := [], ops := s4.ops, index := s4.index,
                                         sendCount := s4.sendCount)
            && forall r | r in s.ops + s.sendQ[k..] + s.recvQ :: GoesOn(r, s4.ops)
  {
    hide Typed, InBounds, Pull, SendPass, PostAll, Reversed, Remaining, SameJob, GoesOn;
    BetweenMeans(s);
    PullBetween(s);
    var k, s1 := Remaining(|s.sendQ|, 1024 - s.sendCount), PullOnce(s);
    SendPassMoves(s1);
    SendBetween(s1);
    var s2 := SendPass(s1);
    DrainTyped(s2);
    PostAllMoves(DoDrain(s2));
    ReversedMembers(s.sendQ[k..]);
    forall r | r in s.ops + s.sendQ[k..] + s.recvQ
      ensures GoesOn(r, ServePass(s).ops)
    {
      if r in s2.ops {
        Itself(r);
        GoesOnIn(r, r, ServePass(s).ops);
      }
    }
  }

  lemma Itself(r: Request)
    ensures SameJob(r, r)
  {
  }

  /** What the calls do to the index. */
  lemma ServeStores(s: State)
    requires Inv(s) && Between(s)
    ensures Shaped(s.index) && Shaped(ServePass(s).index) && Stored(s.index, ServePass(s).index, s.recvQ)
  {
    hide Inv, Typed, InBounds, Pull, SendPass, PostAll, Held, Reversed;
    BetweenMeans(s);
    PullBetween(s);
    PullIsRun(s, false);
    var s1 := PullOnce(s);
    LeadsInv(s, s1);
    SendPassIsRun(s1, false);
    SendPassMoves(s1);
    SendBetween(s1);
    var s2 := SendPass(s1);
    LeadsInv(s1, s2);
    DrainTyped(s2);
    InvKept(s2, Drain);
    TypedShaped(s2);
    ServeBetween(s);
    BetweenMeans(ServePass(s));
    PostAllNothing(DoDrain(s2));
    if s.index.unexpected != [] {
      PullHolds(s, s.recvQ);
      PulledIs(s.index);
      PostAllHolds(DoDrain(s2), s.recvQ, s.index.unexpected[0]);
      HeldMeans(ServePass(s).index, s.recvQ, s.index.unexpected[0]);
    }
  }

  lemma PostAllNothing(s: State)
    requires Typed(s) && InBounds(s) && !s.exited
    ensures s.batch == [] ==> PostAll(s) == s
  {
  }

  lemma PulledIs(x: Index)
    requires Shaped(x) && x.unexpected != []
    ensures var c := Chan(x.unexpected[0].tag);
            Pull(x) == x.(unexpected := x.unexpected[1..], lists := x.lists[c := x.lists[c] + [x.unexpected[0]]])
  {
  }

  lemma HeldMeans(x: Index, recvs: seq<Request>, m: Message)
    requires Shaped(x) && Held(x, recvs, m)
    ensures m !in x.unexpected && (m in x.lists[Chan(m.tag)] || GivenAmong(x, recvs, m))
  {
  }

  lemma TurnDoes(s: State, finish: set<nat>)
    requires Inv(s) && Between(s)
    ensures TurnDid(s, TurnPass(s, finish), finish)
  {
    hide Inv, Typed, Between, ServePass, Scan, Finishing, Remaining, Stored, Collected, GoesOn, LeadsTo;
    var s4 := ServePass(s);
    var k := Remaining(|s.sendQ|, 1024 - s.sendCount);
    BetweenMeans(s);
    ServeMoves(s);
    ServeStores(s);
    ServePassIsRun(s, false);
    LeadsInv(s, s4);
    InvParts(s4);
    CollectDoes(s, s4, s.ops + s.sendQ[k..] + s.recvQ, finish);
    ScanCompletes(s4, Finishing(s4, finish), 0);
  }

  /** What a turn does before the transport goes on: one message is stored, the
      sends that fit and all receives go to the operations. */
  ghost predicate Served(s: State, s': State) {
    var k := Remaining(|s.sendQ|, 1024 - s.sendCount);
    && Shaped(s.index) && Shaped(s'.index) && k <= |s.sendQ|
    && Stored(s.index, s'.index, s.recvQ)
    && s' == s.(sendQ := s.sendQ[..k], recvQ := [], ops := s'.ops, index := s'.index, sendCount := s'.sendCount)
    && forall r | r in s.ops + s.sendQ[k..] + s.recvQ :: GoesOn(r, s'.ops)
  }

  lemma ServeDoes(s: State)
    requires Inv(s) && Between(s)
    ensures Served(s, ServePass(s))
  {
    hide Inv, Between, ServePass, Stored, GoesOn, Remaining;
    ServeMoves(s);
    ServeStores(s);
  }

  /** A send pass ends with the queue empty or exactly 1024 sends in flight. */
  lemma WindowFills(s: State)
    requires Inv(s) && !s.exited
    ensures var s' := SendPass(s);
            s'.sendQ == [] || (s'.sendCount == 1024 && Sum(s'.ops, KindOf)[SendKind] == 1024)
  {
    hide Inv, SendPass, Sum, Reversed, LeadsTo;
    SendPassMoves(s);
    SendPassIsRun(s, false);
    LeadsInv(s, SendPass(s));
    InvWindow(s);
    InvWindow(SendPass(s));
  }
}
