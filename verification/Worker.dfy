/** The handle at work (clh.c:392-457, 549-740): user calls, arrivals and turns
    of the worker loop on mutable requests, each as a step or a pass of the
    engine. Between them the handle is in a reachable state of the engine; with
    every queued receive on its right channel, in a state of the one queue. */
module Worker {
  import opened Protocol
  import opened Sequences
  import Matching
  import E = Engine
  import P = Passes
  import T = Turns
  import A = Calls
  import I = Invariant
  import G = Guarantees
  import H = Handle
  import D = Delivery
  import R = Refinement
  import S = StaleChannel
  import opened Requests

  /** The handle is in a reachable state, between two functions of the worker. */
  ghost predicate Sound(h: H.Handle)
    reads h, h.sendFree, h.recvFree, h.probeFree, h.sendQ, h.recvQ, h.batch, h.inFlight, h.user, h.ops, h.ops.ptr
    reads h.queues, h.queues.lists, h.queues.nodes
    reads h.recvList, h.recvList.lists, h.recvList.all, h.recvList.repr, h.ucx`unexpected, h.ucx`posted, h.ucx`given
    reads h.cache, h.cache.nodes, h.cache.allocator, h.cache.allocator.blocks, h.cache.allocator.used
  {
    && h.Valid() && h.Chained() && h.recvList.Valid() && h.cache.Valid()
    && h.batch == [] && G.Reachable(h.Model())
  }

  /** With every queued receive on its right channel the handle is what the one
      queue makes of its calls, and no receive waits beside its message. */
  lemma SoundMeans(h: H.Handle)
    requires Sound(h) && G.Intended(h.Model())
    ensures G.OfOneQueue(h.Model()) && R.NothingMissed(h.Model().index)
  {
    hide G.Intended, G.OfOneQueue, R.NothingMissed;
    G.IntendedMeans(h.Model());
  }

  lemma Typed(s: E.State)
    requires G.Reachable(s)
    ensures D.Typed(s)
  {
    hide G.Reachable, I.Inv, D.Typed;
    G.ReachableInv(s);
    S.InvTyped(s);
  }

  lemma ModelFrame(h: H.Handle)
    ensures h.Model().exited == h.exited && h.Model().run == h.run
    ensures |h.Model().batch| == |h.batch| && |h.Model().recvQ| == |h.recvQ|
    ensures |h.Model().arrived| == |h.arrived|
    ensures h.recvQ == [] && h.batch == [] ==> P.InBounds(h.Model())
  {
  }

  /** Between two turns, if no queued receive is out of bounds. */
  lemma Ready(h: H.Handle)
    requires Sound(h) && !h.exited && P.InBounds(h.Model())
    ensures P.Between(h.Model())
  {
    hide G.Reachable, D.Typed, P.InBounds, H.Handle.Valid, H.Handle.Chained, H.Handle.Model;
    Typed(h.Model());
    ModelFrame(h);
  }

  /** start_: the worker begins in the start state, and runs. */
  method Start(capacity: nat) returns (h: H.Handle)
    ensures Sound(h) && h.run && !h.exited && h.Model() == E.Start(capacity) && G.Intended(h.Model())
    ensures fresh(h) && fresh(h.queues) && fresh(h.queues.lists) && fresh(h.queues.nodes)
    ensures fresh(h.ops) && fresh(h.ops.ptr) && fresh(h.ucx)
    ensures fresh(h.recvList) && fresh(h.recvList.all) && fresh(h.recvList.repr)
    ensures fresh(h.cache.Footprint()) && forall k, r | r in h.Pool(k) :: fresh(r)
  {
    hide E.Start, H.C.BufferCache.Valid, H.M.Channels.Valid, H.Handle.Valid, H.Handle.Chained, H.Handle.Model,
      G.Reachable, G.Intended;
    h := H.Create();
    h.FillPools(capacity);
    G.StartPlain(capacity);
    G.StartRuns(capacity);
    ModelFrame(h);
    G.StartIntended(capacity);
    G.IntendedMeans(E.Start(capacity));
  }

  // ----- user calls -----

  /** clh_send: the returned request is the last in the send queue. */
  method Send(h: H.Handle, channel: bv32, me: bv32, dest: bv32, tag: bv32, mem: nat) returns (r: Request)
    requires Sound(h)
    modifies h`sendFree, h`recvFree, h`probeFree, h`nodeCount, h`home, h`sendQ, h`tickets
    modifies H.First(h.sendFree), h.queues, h.queues.lists, h.queues.nodes
    ensures Sound(h) && h.queues.Grown({}) && r.mem == mem
    ensures h.Chains() == old(h.Chains()).(sendFree := H.Rest(old(h.sendFree)), sendQ := old(h.sendQ) + [r])
    ensures if old(h.sendFree) == [] then fresh(r) && fresh(r.link)
            else r == old(h.sendFree)[0] && r.link == old(h.sendFree[0].link)
    ensures h.Model() == E.DoSend(old(h.Model()), channel, me, dest, tag)
    ensures A.SendFor(r.Snap(), channel, me, dest, tag)
    ensures G.Intended(old(h.Model())) ==> G.Intended(h.Model())
  {
    hide E.DoSend, A.SendFor, G.Reachable, G.Intended, H.Handle.Valid, H.Handle.Chained, H.Handle.Model,
      H.C.BufferCache.Valid, H.M.Channels.Valid;
    ghost var s := h.Model();
    r := h.Send(channel, me, dest, tag, mem);
    G.StepLeads(s, E.Send(channel, me, dest, tag));
  }

  /** clh_recv: the returned request is the last in the receive queue. Every
      queued receive stays on its right channel exactly when the node already
      held the one that is asked for. */
  method Recv(h: H.Handle, channel: bv32, tag: bv32, tagMask: bv32, mem: nat) returns (r: Request)
    requires Sound(h)
    modifies h`sendFree, h`recvFree, h`probeFree, h`nodeCount, h`home, h`recvQ, h`tickets
    modifies H.First(h.recvFree), h.queues, h.queues.lists, h.queues.nodes
    ensures Sound(h) && h.queues.Grown({}) && r.mem == mem
    ensures h.Chains() == old(h.Chains()).(recvFree := H.Rest(old(h.recvFree)), recvQ := old(h.recvQ) + [r])
    ensures if old(h.recvFree) == [] then fresh(r) && fresh(r.link)
            else
              && r == old(h.recvFree)[0] && r.Fields() == old(h.recvFree[0].Fields())
              && r.link == old(h.recvFree[0].link)
    ensures h.Model() == E.DoRecv(old(h.Model()), AnySource(channel, tag, tagMask), r.Fields())
    ensures A.RecvFor(r.Snap(), A.Any(channel, tag, tagMask), r.Fields())
    ensures G.Intended(old(h.Model())) ==>
              (G.Intended(h.Model()) <==> r.channel == DecodeTag(EncodeTag(channel, 0, tag)).channel)
  {
    hide E.DoRecv, A.RecvFor, G.Reachable, G.Intended, H.Handle.Valid, H.Handle.Chained, H.Handle.Model, OneChannel,
      DecodeTag, EncodeTag, H.C.BufferCache.Valid, H.M.Channels.Valid;
    ghost var s := h.Model();
    r := h.Recv(channel, tag, tagMask, mem);
    AlwaysOneChannel(channel, 0, tag, tagMask);
    G.StepLeads(s, E.Recv(AnySource(channel, tag, tagMask), r.Fields()));
  }

  /** clh_recv_from, likewise. */
  method RecvFrom(h: H.Handle, channel: bv32, source: bv32, tag: bv32, tagMask: bv32, mem: nat) returns (r: Request)
    requires Sound(h)
    modifies h`sendFree, h`recvFree, h`probeFree, h`nodeCount, h`home, h`recvQ, h`tickets
    modifies H.First(h.recvFree), h.queues, h.queues.lists, h.queues.nodes
    ensures Sound(h) && h.queues.Grown({}) && r.mem == mem
    ensures h.Chains() == old(h.Chains()).(recvFree := H.Rest(old(h.recvFree)), recvQ := old(h.recvQ) + [r])
    ensures if old(h.recvFree) == [] then fresh(r) && fresh(r.link)
            else
              && r == old(h.recvFree)[0] && r.Fields() == old(h.recvFree[0].Fields())
              && r.link == old(h.recvFree[0].link)
    ensures h.Model() == E.DoRecv(old(h.Model()), FromSource(channel, source, tag, tagMask), r.Fields())
    ensures A.RecvFor(r.Snap(), A.From(channel, source, tag, tagMask), r.Fields())
    ensures G.Intended(old(h.Model())) ==>
              (G.Intended(h.Model()) <==> r.channel == DecodeTag(EncodeTag(channel, source, tag)).channel)
  {
    hide E.DoRecv, A.RecvFor, G.Reachable, G.Intended, H.Handle.Valid, H.Handle.Chained, H.Handle.Model, OneChannel,
      DecodeTag, EncodeTag, H.C.BufferCache.Valid, H.M.Channels.Valid;
    ghost var s := h.Model();
    r := h.RecvFrom(channel, source, tag, tagMask, mem);
    AlwaysOneChannel(channel, source, tag, tagMask);
    G.StepLeads(s, E.Recv(FromSource(channel, source, tag, tagMask), r.Fields()));
  }

  /** clh_probe: the returned request is the last in user hands; `left` is what
      its node held before. */
  method Probe(h: H.Handle, channel: bv32, tag: bv32, tagMask: bv32, remove: bool)
    returns (r: Request, ghost left: Fields)
    requires Sound(h) && channel < 0x100
    modifies h`sendFree, h`recvFree, h`probeFree, h`nodeCount, h`home, h`user
    modifies H.First(h.probeFree), h.queues, h.queues.lists, h.queues.nodes
    modifies h.recvList`content, h.recvList.all, h.recvList.repr
    ensures Sound(h) && h.queues.Grown({}) && h.user == old(h.user) + [r]
    ensures h.Chains() == old(h.Chains()).(probeFree := H.Rest(old(h.probeFree)))
    ensures if old(h.probeFree) == [] then fresh(r) && fresh(r.link)
            else r == old(h.probeFree)[0] && left == old(h.probeFree[0].Fields()) && r.link == old(h.probeFree[0].link)
    ensures Matching.Shaped(old(h.Model()).index)
    ensures h.Model() == E.DoProbe(old(h.Model()), channel, AnySource(channel, tag, tagMask), remove, left)
    ensures Probed(old(h.Model()).index, h.Model().index, r.Snap(), A.Any(channel, tag, tagMask), remove, left)
    ensures G.Intended(old(h.Model())) ==> G.Intended(h.Model())
  {
    hide E.DoProbe, Probed, G.Reachable, G.Intended, H.Handle.Valid, H.Handle.Chained, H.Handle.Model, AnySource,
      OneChannel, D.Typed, DecodeTag, H.C.BufferCache.Valid, H.M.Channels.Valid;
    ghost var s := h.Model();
    ProbeEnabled(s, channel, 0, tag, tagMask);
    r, left := ProbeFor(h, A.Any(channel, tag, tagMask), remove);
  }

  /** clh_probe_source */
  method ProbeSource(h: H.Handle, channel: bv32, source: bv32, tag: bv32, tagMask: bv32, remove: bool)
    returns (r: Request, ghost left: Fields)
    requires Sound(h) && channel < 0x100 && source < 0x100_0000
    modifies h`sendFree, h`recvFree, h`probeFree, h`nodeCount, h`home, h`user
    modifies H.First(h.probeFree), h.queues, h.queues.lists, h.queues.nodes
    modifies h.recvList`content, h.recvList.all, h.recvList.repr
    ensures Sound(h) && h.queues.Grown({}) && h.user == old(h.user) + [r]
    ensures h.Chains() == old(h.Chains()).(probeFree := H.Rest(old(h.probeFree)))
    ensures if old(h.probeFree) == [] then fresh(r) && fresh(r.link)
            else r == old(h.probeFree)[0] && left == old(h.probeFree[0].Fields()) && r.link == old(h.probeFree[0].link)
    ensures Matching.Shaped(old(h.Model()).index)
    ensures h.Model() == E.DoProbe(old(h.Model()), channel, FromSource(channel, source, tag, tagMask), remove, left)
    ensures Probed(old(h.Model()).index, h.Model().index, r.Snap(), A.From(channel, source, tag, tagMask), remove, left)
    ensures G.Intended(old(h.Model())) ==> G.Intended(h.Model())
  {
    hide E.DoProbe, Probed, G.Reachable, G.Intended, H.Handle.Valid, H.Handle.Chained, H.Handle.Model, FromSource,
      OneChannel, D.Typed, DecodeTag, H.C.BufferCache.Valid, H.M.Channels.Valid;
    ghost var s := h.Model();
    ProbeEnabled(s, channel, source, tag, tagMask);
    r, left := ProbeFor(h, A.From(channel, source, tag, tagMask), remove);
  }

  /** The answer is about the list of the channel asked for, and the list is left
      as the probe should leave it. */
  ghost predicate Probed(x: Matching.Index, x': Matching.Index, r: E.Request, ask: A.Ask, remove: bool, left: Fields) {
    && A.Fits(ask) && |x.lists| == |x'.lists| == MAX_CHANNELS
    && var c := ask.channel as nat;
       && A.ProbeFor(r, x.lists[c], ask, remove, left) && A.ListAfter(x.lists[c], x'.lists[c], ask, remove)
       && x' == x.(lists := x.lists[c := x'.lists[c]])
  }

  lemma ProbedIs(s: E.State, r: E.Request, ask: A.Ask, remove: bool, left: Fields)
    requires Matching.Shaped(s.index) && A.Fits(ask)
    requires A.Answers(r, s.index.lists[ask.channel as nat], A.Selecting(ask), remove, left)
    ensures Probed(s.index, E.DoProbe(s, ask.channel, A.Selecting(ask), remove, left).index, r, ask, remove, left)
  {
    hide A.ProbeFor, A.ListAfter, A.Answers, A.Selecting, E.DoProbe;
    A.AnswersAsk(r, s.index.lists[ask.channel as nat], ask, remove, left);
    A.ProbeTakes(s, ask, remove, left);
  }

  method ProbeFor(h: H.Handle, ask: A.Ask, remove: bool) returns (r: Request, ghost left: Fields)
    requires Sound(h) && A.Fits(ask)
    requires OneChannel(A.Selecting(ask)) && DecodeTag(A.Selecting(ask).tag).channel == ask.channel
    modifies h`sendFree, h`recvFree, h`probeFree, h`nodeCount, h`home, h`user
    modifies H.First(h.probeFree), h.queues, h.queues.lists, h.queues.nodes
    modifies h.recvList`content, h.recvList.all, h.recvList.repr
    ensures Sound(h) && h.queues.Grown({}) && h.user == old(h.user) + [r]
    ensures h.Chains() == old(h.Chains()).(probeFree := H.Rest(old(h.probeFree)))
    ensures if old(h.probeFree) == [] then fresh(r) && fresh(r.link)
            else r == old(h.probeFree)[0] && left == old(h.probeFree[0].Fields()) && r.link == old(h.probeFree[0].link)
    ensures Matching.Shaped(old(h.Model()).index)
    ensures h.Model() == E.DoProbe(old(h.Model()), ask.channel, A.Selecting(ask), remove, left)
    ensures Probed(old(h.Model()).index, h.Model().index, r.Snap(), ask, remove, left)
    ensures G.Intended(old(h.Model())) ==> G.Intended(h.Model())
  {
    hide E.DoProbe, Probed, A.Answers, A.Selecting, G.Reachable, G.Intended, H.Handle.Valid, H.Handle.Chained,
      H.Handle.Model, OneChannel, D.Typed, DecodeTag, H.C.BufferCache.Valid, H.M.Channels.Valid;
    ghost var s := h.Model();
    ShapedIndex(s);
    var want := A.Selecting(ask);
    r, left := h.Probe_(ask.channel, want, remove);
    ProbedIs(s, r.Snap(), ask, remove, left);
    G.StepLeads(s, E.Probe(ask.channel, want, remove, left));
  }

  lemma ShapedIndex(s: E.State)
    requires G.Reachable(s)
    ensures Matching.Shaped(s.index)
  {
    hide G.Reachable;
    Typed(s);
  }

  lemma ProbeEnabled(s: E.State, channel: bv32, source: bv32, tag: bv32, tagMask: bv32)
    requires G.Reachable(s) && channel < 0x100 && source < 0x100_0000
    ensures Matching.Shaped(s.index)
    ensures OneChannel(AnySource(channel, tag, tagMask))
    ensures DecodeTag(AnySource(channel, tag, tagMask).tag).channel == channel
    ensures OneChannel(FromSource(channel, source, tag, tagMask))
    ensures DecodeTag(FromSource(channel, source, tag, tagMask).tag).channel == channel
  {
    hide G.Reachable, OneChannel, DecodeTag, EncodeTag;
    ShapedIndex(s);
    AlwaysOneChannel(channel, source, tag, tagMask);
    DecodeEncode(channel, 0, tag);
    DecodeEncode(channel, source, tag);
  }

  /** clh_request_recv: request i in user hands, a probe that hit, becomes the
      last in the receive queue. */
  method RequestRecv(h: H.Handle, r: Request, mem: nat, ghost i: nat)
    requires Sound(h) && i < |h.user| && h.user[i] == r && r.body.ProbeBody? && r.body.result
    modifies h`user, h`recvQ, h`tickets, h.queues, h.queues.lists, h.queues.nodes, r.link
    modifies r`kind, r`completed, r`body, r`ticket, r`place, r`mem
    ensures Sound(h) && h.queues.Grown({r.link}) && r.link == old(r.link) && r.mem == mem
    ensures h.user == Without(old(h.user), i) && h.Chains() == old(h.Chains()).(recvQ := old(h.recvQ) + [r])
    ensures i < |old(h.Model()).user| && old(h.Model()).user[i].body.ProbeBody?
    ensures h.Model() == E.DoRequestRecv(old(h.Model()), i) && A.ReceiveOf(old(h.Model()).user[i], r.Snap())
    ensures G.Intended(old(h.Model())) ==> G.Intended(h.Model())
  {
    hide E.DoRequestRecv, A.ReceiveOf, G.Reachable, G.Intended, H.Handle.Valid, H.Handle.Chained, H.Handle.Model,
      H.C.BufferCache.Valid, H.M.Channels.Valid;
    ghost var s := h.Model();
    UserAt(h, i);
    h.RequestRecv(r, mem, i);
    G.StepLeads(s, E.RequestRecv(i));
  }

  /** clh_request_release: request i in user hands heads the pool of its type. */
  method Release(h: H.Handle, r: Request, ghost i: nat)
    requires Sound(h) && i < |h.user| && h.user[i] == r
    modifies h`user, h`sendFree, h`recvFree, h`probeFree, h`dropped, r`place, h.queues, h.queues.lists, r.link
    ensures Sound(h) && h.queues.Grown({r.link}) && h.user == Without(old(h.user), i)
    ensures h.Chains() == old(h.Chains()).WithFree(r.kind, [r] + old(h.Pool(r.kind)))
    ensures i < |old(h.Model()).user| && h.Model() == E.DoRelease(old(h.Model()), i)
    ensures G.Intended(old(h.Model())) ==> G.Intended(h.Model())
  {
    hide E.DoRelease, G.Reachable, G.Intended, H.Handle.Valid, H.Handle.Chained, H.Handle.Model,
      H.C.BufferCache.Valid, H.M.Channels.Valid;
    ghost var s := h.Model();
    UserAt(h, i);
    h.Release(r, i);
    G.StepLeads(s, E.Release(i));
  }

  /** terminate_ clears run. */
  method Stop(h: H.Handle)
    requires Sound(h)
    modifies h`run
    ensures Sound(h) && h.Model() == old(h.Model()).(run := false)
    ensures G.Intended(old(h.Model())) ==> G.Intended(h.Model())
  {
    hide G.Reachable, G.Intended, H.Handle.Valid, H.Handle.Chained, H.Handle.Model,
      H.C.BufferCache.Valid, H.M.Channels.Valid;
    ghost var s := h.Model();
    h.Stop();
    G.StepLeads(s, E.Stop);
  }

  lemma UserAt(h: H.Handle, i: nat)
    requires i < |h.user|
    ensures i < |h.Model().user| && h.Model().user[i] == h.user[i].Snap()
  {
  }

  // ----- the transport -----

  /** A message arrives. */
  method Arrives(h: H.Handle, m: Matching.Message)
    requires Sound(h) && m.id == |h.arrived|
    modifies h`arrived, h.ucx`unexpected, h.ucx`posted, h.ucx`given
    ensures Sound(h) && h.Model() == E.DoArrival(old(h.Model()), m)
    ensures G.Intended(old(h.Model())) ==> G.Intended(h.Model())
  {
    hide E.DoArrival, G.Reachable, G.Intended, H.Handle.Valid, H.Handle.Chained, H.Handle.Model,
      H.C.BufferCache.Valid, H.M.Channels.Valid;
    ghost var s := h.Model();
    ModelFrame(h);
    h.Arrival(m);
    G.StepLeads(s, E.Arrival(m));
  }

  // ----- the worker -----

  /** All the parts of Sound but the last, of a handle in state s. */
  ghost predicate Stands(h: H.Handle, s: E.State)
    reads h, h.sendFree, h.recvFree, h.probeFree, h.sendQ, h.recvQ, h.batch, h.inFlight, h.user, h.ops, h.ops.ptr
    reads h.queues, h.queues.lists, h.queues.nodes
    reads h.recvList, h.recvList.lists, h.recvList.all, h.recvList.repr, h.ucx`unexpected, h.ucx`posted, h.ucx`given
    reads h.cache, h.cache.nodes, h.cache.allocator, h.cache.allocator.blocks, h.cache.allocator.used
  {
    && h.Valid() && h.Chained() && h.recvList.Valid() && h.cache.Valid()
    && h.batch == [] && h.Model() == s && P.Between(s)
  }

  /** probe_incomming_messages_ */
  method Pull(h: H.Handle)
    requires Stands(h, h.Model())
    modifies h.recvList`content, h.recvList`owned, h.recvList`repr, h.recvList.all, h.recvList.repr, h.ucx`unexpected
    ensures Matching.Shaped(old(h.Model()).index)
    ensures Stands(h, P.PullOnce(old(h.Model()))) && fresh(h.recvList.repr - old(h.recvList.repr))
  {
    hide P.Between, H.Handle.Valid, H.Handle.Chained, H.Handle.Model, H.M.Channels.Valid, H.C.BufferCache.Valid;
    ghost var s := h.Model();
    h.ProbeIncoming();
    P.PullBetween(s);
  }

  /** As many sends as a window of 1024 has room for are gone from the queue's
      tail, and the transport has been given just these, the last first. */
  ghost predicate Sent(s: E.State, q: seq<Request>, sent: seq<P.Outgoing>, q': seq<Request>, sent': seq<P.Outgoing>) {
    var k := T.Remaining(|q|, 1024 - s.sendCount);
    && k <= |q| == |s.sendQ| && q' == q[..k]
    && sent' == sent + P.Sendings(T.Reversed(s.sendQ[k..]))
  }

  lemma SentIs(s: E.State, q: seq<Request>, sent: seq<P.Outgoing>, q': seq<Request>, sent': seq<P.Outgoing>)
    requires |q| == |s.sendQ| && q' <= q && |q'| == |P.SendPass(s).sendQ| && |s.ops| <= |P.SendPass(s).ops|
    requires sent' == sent + P.Sendings(P.SendPass(s).ops[|s.ops|..])
    ensures Sent(s, q, sent, q', sent')
  {
    hide P.SendPass, P.Sendings, T.Reversed, T.Remaining;
    T.SendPassMoves(s);
    var k := T.Remaining(|q|, 1024 - s.sendCount);
    assert P.SendPass(s).ops[|s.ops|..] == T.Reversed(s.sendQ[k..]);
  }

  lemma QueuedSends(s: E.State)
    requires P.Between(s)
    ensures P.OnlySends(s.sendQ)
  {
  }

  lemma QueueLength(h: H.Handle)
    ensures |h.Model().sendQ| == |h.sendQ|
  {
  }

  /** process_send_queue_: all is submitted that the window lets through, each
      on a registered buffer, unless a transport call or a mapping fails. */
  method Submit(h: H.Handle) returns (status: H.Status)
    requires Stands(h, h.Model())
    modifies h`sendQ, h`inFlight, h`user, h`log, h`sendCount, h.sendQ`completed, h.sendQ`place, h.ops, h.ops.ptr
    modifies h.ucx`failures, h.ucx`refused, h.ucx`sent, h.queues.lists, h.queues.nodes
    modifies h.cache, h.cache.allocator, h.cache.allocator.lastBlock, h.cache.Cells()
    ensures status == H.Success <==> h.ucx.failures == old(h.ucx.failures) && h.ucx.refused == old(h.ucx.refused)
    ensures status == H.Success ==>
              && Stands(h, P.SendPass(old(h.Model()))) && h.user == old(h.user) && h.Grown()
              && (h.ops.ptr == old(h.ops.ptr) || fresh(h.ops.ptr))
              && h.sendQ <= old(h.sendQ) && old(h.inFlight) <= h.inFlight
              && (forall r | r in h.inFlight :: r in old(h.inFlight) || r in old(h.sendQ))
              && (forall r | r in old(h.sendQ) :: r in h.sendQ || r in h.inFlight)
              && (forall r | r in h.inFlight && r !in old(h.inFlight) :: h.Registered(r))
              && Sent(old(h.Model()), old(h.sendQ), old(h.ucx.sent), h.sendQ, h.ucx.sent)
    ensures h.queues.nodes == old(h.queues.nodes)
  {
    hide P.Between, H.Handle.Valid, H.Handle.Chained, H.Handle.Model, P.SendPass, H.M.Channels.Valid,
      H.C.BufferCache.Valid, H.C.BufferCache.Map, P.OnlySends, P.Sendings, Sent;
    ghost var s := h.Model();
    QueuedSends(s);
    QueueLength(h);
    status := h.ProcessSendQueue();
    if status == H.Success {
      P.SendBetween(s);
      QueueLength(h);
      SentIs(s, old(h.sendQ), old(h.ucx.sent), h.sendQ, h.ucx.sent);
    }
  }

  /** process_recv_queue_, likewise: every queued receive is handed over. */
  method PostAll(h: H.Handle) returns (status: H.Status)
    requires Stands(h, h.Model())
    modifies h`recvQ, h`batch, h`inFlight, h`user, h`log
    modifies h.recvQ`channel, h.recvQ`source, h.recvQ`tag, h.recvQ`body, h.recvQ`completed, h.recvQ`place
    modifies h.queues`detached, h.queues.lists, h.queues.nodes
    modifies h.recvList`content, h.recvList.all, h.recvList.repr, h.ops, h.ops.ptr
    modifies h.ucx`unexpected, h.ucx`posted, h.ucx`given, h.ucx`failures, h.ucx`refused
    modifies h.cache, h.cache.allocator, h.cache.allocator.lastBlock, h.cache.Cells()
    ensures status == H.Success <==> h.ucx.failures == old(h.ucx.failures) && h.ucx.refused == old(h.ucx.refused)
    ensures P.Between(old(h.Model()))
    ensures status == H.Success ==>
              && Stands(h, P.RecvPass(old(h.Model()))) && h.recvQ == [] && h.user == old(h.user)
              && (h.ops.ptr == old(h.ops.ptr) || fresh(h.ops.ptr)) && h.Grown()
              && h.inFlight == old(h.inFlight) + old(h.recvQ)
              && (forall r | r in old(h.recvQ) :: h.Registered(r))
  {
    hide P.Between, D.Typed, P.InBounds, H.Handle.Valid, H.Handle.Chained, H.Handle.Model, P.RecvPass,
      H.M.Channels.Valid, H.C.BufferCache.Valid, H.C.BufferCache.Map;
    ghost var s := h.Model();
    P.BetweenMeans(s);
    ModelFrame(h);
    status := h.ProcessRecvQueue();
    if status == H.Success {
      P.RecvBetween(s);
    }
  }

  /** Pulling a message has nothing to do with the sends. */
  lemma SentBefore(s: E.State, q: seq<Request>, sent: seq<P.Outgoing>, q': seq<Request>, sent': seq<P.Outgoing>)
    requires P.Between(s) && Sent(P.PullOnce(s), q, sent, q', sent')
    ensures Sent(s, q, sent, q', sent')
  {
    hide P.PullOnce, P.Between, P.Sendings;
    P.PullBetween(s);
  }

  /** Pull one message and submit sends. */
  method PullAndSubmit(h: H.Handle) returns (status: H.Status)
    requires Stands(h, h.Model())
    modifies h`sendQ, h`inFlight, h`user, h`log, h`sendCount, h.sendQ`completed, h.sendQ`place, h.ops, h.ops.ptr
    modifies h.recvList`content, h.recvList`owned, h.recvList`repr, h.recvList.all, h.recvList.repr
    modifies h.ucx`unexpected, h.ucx`failures, h.ucx`refused, h.ucx`sent, h.queues.lists, h.queues.nodes
    modifies h.cache, h.cache.allocator, h.cache.allocator.lastBlock, h.cache.Cells()
    ensures status == H.Success <==> h.ucx.failures == old(h.ucx.failures) && h.ucx.refused == old(h.ucx.refused)
    ensures Matching.Shaped(old(h.Model()).index)
    ensures status == H.Success ==>
              && Stands(h, P.SendPass(P.PullOnce(old(h.Model())))) && h.user == old(h.user) && h.Grown()
              && (h.ops.ptr == old(h.ops.ptr) || fresh(h.ops.ptr)) && fresh(h.recvList.repr - old(h.recvList.repr))
              && Submitted(old(h.sendQ), old(h.inFlight), h.sendQ, h.inFlight)
              && Sent(old(h.Model()), old(h.sendQ), old(h.ucx.sent), h.sendQ, h.ucx.sent)
    ensures h.queues.nodes == old(h.queues.nodes)
  {
    hide Stands, Sent, P.Between, P.PullOnce, P.SendPass, H.Handle.Model, H.C.BufferCache.Map;
    StandsBetween(h, h.Model());
    Pull(h);
    StandsAs(h, P.PullOnce(old(h.Model())));
    status := Submit(h);
    if status == H.Success {
      SentBefore(old(h.Model()), old(h.sendQ), old(h.ucx.sent), h.sendQ, h.ucx.sent);
    }
  }

  /** Sends have left the queue for the operations. */
  ghost predicate Submitted(q: seq<Request>, ops: seq<Request>, q': seq<Request>, ops': seq<Request>) {
    && q' <= q && ops <= ops'
    && (forall r | r in ops' :: r in ops || r in q)
    && (forall r | r in q :: r in q' || r in ops')
  }

  /** Pull one message, submit sends, hand receives over. */
  method Serve(h: H.Handle) returns (status: H.Status)
    requires Stands(h, h.Model())
    modifies h`sendQ, h`recvQ, h`batch, h`inFlight, h`user, h`log, h`sendCount, h.sendQ`completed, h.sendQ`place
    modifies h.recvQ`channel, h.recvQ`source, h.recvQ`tag, h.recvQ`body, h.recvQ`completed, h.recvQ`place
    modifies h.queues`detached, h.queues.lists, h.queues.nodes
    modifies h.recvList`content, h.recvList`owned, h.recvList`repr, h.recvList.all, h.recvList.repr, h.ops, h.ops.ptr
    modifies h.ucx`unexpected, h.ucx`posted, h.ucx`given, h.ucx`failures, h.ucx`refused, h.ucx`sent
    modifies h.cache, h.cache.allocator, h.cache.allocator.lastBlock, h.cache.Cells()
    ensures status == H.Success <==> h.ucx.failures == old(h.ucx.failures) && h.ucx.refused == old(h.ucx.refused)
    ensures P.Between(old(h.Model()))
    ensures status == H.Success ==>
              && Sent(old(h.Model()), old(h.sendQ), old(h.ucx.sent), h.sendQ, h.ucx.sent)
              && Stands(h, P.ServePass(old(h.Model()))) && h.recvQ == [] && h.user == old(h.user)
              && (h.ops.ptr == old(h.ops.ptr) || fresh(h.ops.ptr)) && h.Grown()
              && fresh(h.recvList.repr - old(h.recvList.repr)) && h.sendQ <= old(h.sendQ)
              && Among(h.sendQ, [], h.inFlight) == old(Underway(h))
              && (forall r | r in h.inFlight :: r in old(Underway(h)))
  {
    hide Stands, Sent, Submitted, Among, P.Between, P.PullOnce, P.SendPass, P.RecvPass, H.Handle.Model,
      H.C.BufferCache.Map;
    StandsBetween(h, h.Model());
    status := PullAndSubmit(h);
    if status != H.Success {
      return;
    }
    StandsAs(h, P.SendPass(P.PullOnce(old(h.Model()))));
    StillAmong(old(h.sendQ), h.recvQ, old(h.inFlight), h.sendQ, h.inFlight);
    status := PostAll(h);
  }

  ghost function Among(a: seq<Request>, b: seq<Request>, c: seq<Request>): set<Request> {
    set r | r in a + b + c
  }

  /** Every request that is queued or in progress. */
  ghost function Underway(h: H.Handle): set<Request>
    reads h`sendQ, h`recvQ, h`inFlight
  {
    Among(h.sendQ, h.recvQ, h.inFlight)
  }

  lemma StillAmong(q: seq<Request>, recvs: seq<Request>, ops: seq<Request>, q': seq<Request>, ops': seq<Request>)
    requires Submitted(q, ops, q', ops')
    ensures q' <= q && Among(q', [], ops' + recvs) == Among(q, recvs, ops)
    ensures forall r | r in ops' + recvs :: r in Among(q, recvs, ops)
  {
    assert forall r | r in q' :: r in q;
    assert forall r | r in ops :: r in ops';
  }

  /** A pass over the operations passes some of them to the user. */
  lemma SomePassed(q: seq<Request>, ops: seq<Request>, u: seq<Request>, ops': seq<Request>, u': seq<Request>)
    requires H.Passed(ops, u, ops', u')
    ensures u <= u' && Among(q, [], ops') <= Among(q, [], ops)
    ensures forall r | r in Among(q, [], ops) :: r in Among(q, [], ops') || r in u'
  {
  }

  lemma StandsBetween(h: H.Handle, s: E.State)
    requires Stands(h, s)
    ensures P.Between(s)
  {
    hide P.Between, H.Handle.Valid, H.Handle.Chained, H.Handle.Model, H.M.Channels.Valid, H.C.BufferCache.Valid;
  }

  lemma StandsAs(h: H.Handle, s: E.State)
    requires Stands(h, s)
    ensures h.Model() == s
  {
    hide P.Between, H.Handle.Valid, H.Handle.Chained, H.Handle.Model, H.M.Channels.Valid, H.C.BufferCache.Valid;
  }

  /** process_ops_queue_ after the transport has moved on. It fails exactly on
      an operation in progress that the transport reports as failed. */
  method Collect(h: H.Handle) returns (status: H.Status)
    requires Stands(h, h.Model()) && h.FinishedAreGiven()
    requires forall r | r in h.Model().ops && r.ticket in h.ucx.done :: E.Ready(h.Model(), r)
    modifies h`inFlight, h`sendCount, h`user, h`log, h.ops`len, h.ops.ptr, h.ucx`tested
    modifies h.inFlight`channel, h.inFlight`source, h.inFlight`tag, h.inFlight`completed, h.inFlight`place
    ensures status == H.Success <==>
            forall r | r in old(h.Model()).ops && r.ticket in h.ucx.broken :: r.ticket in h.ucx.done
    ensures status == H.Success ==>
              && Stands(h, P.Scan(old(h.Model()), h.ucx.done, 0))
              && H.Passed(old(h.inFlight), old(h.user), h.inFlight, h.user)
  {
    hide P.Between, H.Handle.Valid, H.Handle.Chained, H.Handle.Model, H.Handle.FinishedAreGiven, H.Passed, P.Scan,
      P.MeetsBroken, H.C.BufferCache.Valid, H.M.Channels.Valid;
    ghost var s := h.Model();
    status := h.ProcessOpsQueue();
    P.MeetsBrokenExact(s.ops, h.ucx.done, h.ucx.broken, 0);
    assert s.ops[0..] == s.ops;
    if status == H.Success {
      P.ScanBetween(s, h.ucx.done);
    }
  }

  /** A whole turn of the loop of run_: serve the queues, let the transport
      finish what it can of `finish` and break `fail`, collect. It succeeds
      exactly when no transport call and no mapping fails and no operation in
      progress breaks; then the turn has done what it should, and every request
      is still queued, in progress or with the user. */
  method Turn(h: H.Handle, finish: set<nat>, fail: set<nat>) returns (status: H.Status)
    requires Sound(h) && !h.exited && P.InBounds(h.Model())
    modifies h`sendQ, h`recvQ, h`batch, h`inFlight, h`user, h`log, h`sendCount
    modifies Underway(h)`channel, Underway(h)`source, Underway(h)`tag, Underway(h)`body
    modifies Underway(h)`completed, Underway(h)`place
    modifies h.queues`detached, h.queues.lists, h.queues.nodes
    modifies h.recvList`content, h.recvList`owned, h.recvList`repr, h.recvList.all, h.recvList.repr, h.ops, h.ops.ptr
    modifies h.ucx, h.cache, h.cache.allocator, h.cache.allocator.lastBlock, h.cache.Cells()
    ensures P.Between(old(h.Model()))
    ensures status == H.Success <==>
              && h.ucx.failures == old(h.ucx.failures) && h.ucx.refused == old(h.ucx.refused)
              && P.Unbroken(old(h.Model()), finish, fail)
    ensures status == H.Success ==>
              && Sound(h) && !h.exited && P.InBounds(h.Model())
              && h.Model() == P.TurnPass(old(h.Model()), finish)
              && T.TurnDid(old(h.Model()), h.Model(), finish)
              && (h.ops.ptr == old(h.ops.ptr) || fresh(h.ops.ptr)) && h.Grown()
              && fresh(h.recvList.repr - old(h.recvList.repr)) && h.sendQ <= old(h.sendQ) && h.recvQ == []
              && old(h.user) <= h.user && Underway(h) <= old(Underway(h))
              && (forall r | r in old(Underway(h)) :: r in Underway(h) || r in h.user)
              && Sent(old(h.Model()), old(h.sendQ), old(h.ucx.sent), h.sendQ, h.ucx.sent)
    ensures status == H.Success && G.Intended(old(h.Model())) ==>
              G.Intended(h.Model()) && R.NothingMissed(h.Model().index)
  {
    hide Stands, Sent, T.TurnDid, Among, G.Reachable, G.Intended, G.OfOneQueue, R.NothingMissed, P.Between, P.TurnPass,
      P.Unbroken, P.InBounds, H.Handle.Valid, H.Handle.Chained, H.Handle.Model, H.M.Channels.Valid,
      H.C.BufferCache.Valid, H.C.BufferCache.Map;
    ghost var s := h.Model();
    Begin(h);
    status := Pass(h, finish, fail);
    if status == H.Success {
      G.TurnLeads(s, finish);
      TurnTells(s, finish);
      Done(h, P.TurnPass(s, finish));
      if G.Intended(s) {
        G.IntendedMeans(h.Model());
      }
    }
  }

  lemma TurnTells(s: E.State, finish: set<nat>)
    requires G.Reachable(s) && P.Between(s)
    ensures T.TurnDid(s, P.TurnPass(s, finish), finish)
  {
    hide G.Reachable, I.Inv, P.Between, P.TurnPass, T.TurnDid;
    G.ReachableInv(s);
    T.TurnDoes(s, finish);
  }

  /** The turn as a pass over the engine's state. */
  method Pass(h: H.Handle, finish: set<nat>, fail: set<nat>) returns (status: H.Status)
    requires Stands(h, h.Model())
    modifies h`sendQ, h`recvQ, h`batch, h`inFlight, h`user, h`log, h`sendCount
    modifies Underway(h)`channel, Underway(h)`source, Underway(h)`tag, Underway(h)`body
    modifies Underway(h)`completed, Underway(h)`place
    modifies h.queues`detached, h.queues.lists, h.queues.nodes
    modifies h.recvList`content, h.recvList`owned, h.recvList`repr, h.recvList.all, h.recvList.repr, h.ops, h.ops.ptr
    modifies h.ucx, h.cache, h.cache.allocator, h.cache.allocator.lastBlock, h.cache.Cells()
    ensures P.Between(old(h.Model()))
    ensures status == H.Success <==>
              && h.ucx.failures == old(h.ucx.failures) && h.ucx.refused == old(h.ucx.refused)
              && P.Unbroken(old(h.Model()), finish, fail)
    ensures status == H.Success ==>
              && Stands(h, P.TurnPass(old(h.Model()), finish))
              && (h.ops.ptr == old(h.ops.ptr) || fresh(h.ops.ptr)) && h.Grown()
              && fresh(h.recvList.repr - old(h.recvList.repr)) && h.sendQ <= old(h.sendQ) && h.recvQ == []
              && old(h.user) <= h.user && Underway(h) <= old(Underway(h))
              && (forall r | r in old(Underway(h)) :: r in Underway(h) || r in h.user)
              && Sent(old(h.Model()), old(h.sendQ), old(h.ucx.sent), h.sendQ, h.ucx.sent)
  {
    hide Stands, Sent, Among, H.Passed, P.Between, P.ServePass, P.Scan, P.Finishing, H.Handle.Model,
      H.C.BufferCache.Map;
    ghost var s := h.Model();
    InProgress(h.sendQ, h.recvQ, h.inFlight);
    status := Serve(h);
    if status != H.Success {
      return;
    }
    InProgress(h.sendQ, [], h.inFlight);
    ghost var ops, u := h.inFlight, h.user;
    status := Finish(h, P.ServePass(s), finish, fail);
    if status == H.Success {
      SomePassed(h.sendQ, ops, u, h.inFlight, h.user);
    }
  }

  lemma InProgress(q: seq<Request>, recvs: seq<Request>, ops: seq<Request>)
    ensures forall r | r in q || r in recvs || r in ops :: r in Among(q, recvs, ops)
  {
  }

  lemma Begin(h: H.Handle)
    requires Sound(h) && !h.exited && P.InBounds(h.Model())
    ensures Stands(h, h.Model()) && P.Between(h.Model())
  {
    hide G.Reachable, P.InBounds, H.Handle.Valid, H.Handle.Chained, H.Handle.Model, H.M.Channels.Valid,
      H.C.BufferCache.Valid;
    Ready(h);
  }

  lemma Done(h: H.Handle, s: E.State)
    requires Stands(h, s) && G.Reachable(s)
    ensures Sound(h) && !h.exited && P.InBounds(h.Model()) && h.Model() == s
  {
    hide G.Reachable, H.Handle.Valid, H.Handle.Chained, H.Handle.Model, H.M.Channels.Valid, H.C.BufferCache.Valid;
    ModelFrame(h);
  }

  /** The rest of a turn, from state s on. */
  method Finish(h: H.Handle, ghost s: E.State, finish: set<nat>, fail: set<nat>) returns (status: H.Status)
    requires Stands(h, s)
    modifies h`inFlight, h`sendCount, h`user, h`log, h.ops`len, h.ops.ptr, h.ucx`tested, h.ucx`done, h.ucx`broken
    modifies h.inFlight`channel, h.inFlight`source, h.inFlight`tag, h.inFlight`completed, h.inFlight`place
    ensures status == H.Success <==> forall r | r in s.ops && r.ticket in fail :: r.ticket in P.Finishing(s, finish)
    ensures status == H.Success ==>
              && Stands(h, P.Scan(s, P.Finishing(s, finish), 0))
              && H.Passed(old(h.inFlight), old(h.user), h.inFlight, h.user)
  {
    hide P.Between, P.Finishing, H.Handle.Valid, H.Handle.Chained, H.Handle.Model, H.Handle.FinishedAreGiven, H.Passed,
      P.Scan, H.C.BufferCache.Valid, H.M.Channels.Valid, E.Ready;
    P.BetweenMeans(s);
    h.Progress(finish, fail);
    P.FinishingReady(s, finish);
    status := Collect(h);
  }

  /** The condition of the loop: the worker leaves exactly when run is false
      and its queues are empty. */
  method Leaves(h: H.Handle) returns (leave: bool)
    requires Sound(h) && !h.exited
    modifies h`exited
    ensures leave <==> !old(h.Model()).run && E.QueuesEmpty(old(h.Model()))
    ensures Sound(h) && h.exited == leave
    ensures h.Model() == if leave then old(h.Model()).(exited := true) else old(h.Model())
    ensures G.Intended(old(h.Model())) ==> G.Intended(h.Model())
  {
    hide G.Reachable, G.Intended, H.Handle.Valid, H.Handle.Chained, H.Handle.Model,
      H.C.BufferCache.Valid, H.M.Channels.Valid;
    ghost var s := h.Model();
    ModelFrame(h);
    leave := h.Leaves();
    if leave { G.StepLeads(s, E.Exit); }
  }
}
