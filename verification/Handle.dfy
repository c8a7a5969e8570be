/** clh/clh.c on mutable requests: every entry point and every worker function
    changes the handle as one step, or one pass, of the engine does. */
module Handle {
  import opened Protocol
  import opened Sequences
  import opened Matching
  import E = Engine
  import D = Delivery
  import P = Passes
  import A = Calls
  import opened Vec
  import opened Requests
  import M = MessageList
  import L = List
  import C = Cache
  import Q = RequestLists

  lemma StoredOnChannel(x: Index, c: nat, i: nat)
    requires Shaped(x) && D.Filed(x) && c < MAX_CHANNELS && i < |x.lists[c]|
    ensures Chan(x.lists[c][i].tag) == c
  {
    hide Chan;
    assert x.lists[c][i] in x.lists[c];
  }

  /** recv_list is indexed by a request's channel. */
  function ListOf(channel: bv32): nat { channel as nat }

  lemma ListOfMeans(tag: bv64)
    ensures ListOf(DecodeTag(tag).channel) == Chan(tag)
  {
  }

  /** What a search of list c brings the receive r. */
  function Picked(r: E.Request, x: Index, c: nat): Option<Message>
    requires Shaped(x) && r.body.RecvBody? && c < MAX_CHANNELS
  {
    if r.body.msg == None && HasMatch(x.lists[c], r.body.want) then
      Some(x.lists[c][FirstMatch(x.lists[c], r.body.want)])
    else None
  }

  lemma MatchedIs(r: E.Request, x: Index, c: nat)
    requires Shaped(x) && r.body.RecvBody? && r.fields.channel < 0x100 && c == ListOf(r.fields.channel)
    ensures c < MAX_CHANNELS
    ensures E.Matched(r, x) == match Picked(r, x, c)
              case Some(m) => r.(fields := DecodeTag(m.tag), body := r.body.(msg := Some(m)))
              case None => r
  {
    hide DecodeTag, FirstMatch, HasMatch;
  }

  /** Search for the receive r, look at what it now owns, and call the transport
      accordingly. */
  ghost function Issued(s: E.State, r: E.Request, c: nat): E.State
    requires Shaped(s.index) && r.body.RecvBody? && r.fields.channel < 0x100 && c < MAX_CHANNELS
  {
    var x := if Picked(r, s.index, c).Some? then Take(s.index, c, r.body.want) else s.index;
    var r' := E.Matched(r, s.index);
    s.(ops := s.ops + [r'],
       index := match r'.body.msg
         case Some(m) => Give(x, r.ticket, m)
         case None => Hand(x, r.ticket, r.body.want))
  }

  lemma TurnInParts(s: E.State, c: nat)
    requires Shaped(s.index) && s.batch != [] && s.batch[0].body.RecvBody? && s.batch[0].fields.channel < 0x100
    requires c == ListOf(s.batch[0].fields.channel)
    ensures c < MAX_CHANNELS
    ensures E.DoPostNext(s) == Issued(s.(batch := s.batch[1..]), s.batch[0], c)
  {
    hide DecodeTag, FirstMatch, HasMatch, Hand, Give, Take;
  }

  /** The send r, in no queue, has been started. */
  ghost function Launched(s: E.State, r: E.Request): E.State {
    s.(ops := s.ops + [r], sendCount := s.sendCount + 1)
  }

  /** A turn of process_send_queue_: the tail leaves the queue, and is in flight. */
  lemma SubmitInParts(s: E.State, s1: E.State)
    requires s.sendQ != [] && s1 == s.(sendQ := DropLast(s.sendQ))
    ensures E.DoSubmitSend(s) == Launched(s1, Last(s.sendQ))
  {
  }

  /** What a UCX call that starts an operation returns. */
  datatype StatusPtr = Failed | Immediate | InProgress

  /** The returned status of an operation under test. */
  datatype TestStatus = Running | Finished | Broken

  /** The transport, as far as CLH relies on it. */
  class Ucx {
    var unexpected: seq<Message>
    var posted: seq<Posted>
    var given: map<nat, Message>
    var done: set<nat>      // operations reported as finished
    var broken: set<nat>    // operations reported as failed
    var failures: nat       // calls that returned an error
    ghost var refused: nat      // mappings asked for and not given
    ghost var tested: seq<nat>  // operations asked about, in order
    ghost var sent: seq<P.Outgoing>   // sends started, in order

    constructor ()
      ensures unexpected == [] && posted == [] && given == map[] && done == {} && broken == {} && failures == 0
      ensures tested == [] && refused == 0 && sent == []
    {
      unexpected, posted, given, done, broken, failures := [], [], map[], {}, {}, 0;
      tested, refused, sent := [], 0, [];
    }

    /** ucp_tag_probe_nb with mask 0 and removal. */
    method ProbeNb() returns (m: Option<Message>)
      modifies this`unexpected
      ensures old(unexpected) == [] ==> m == None && unexpected == []
      ensures old(unexpected) != [] ==> m == Some(old(unexpected)[0]) && unexpected == old(unexpected)[1..]
    {
      if unexpected == [] {
        m := None;
      } else {
        m := Some(unexpected[0]);
        unexpected := unexpected[1..];
      }
    }

    /** ucp_tag_recv_request_test and ucp_request_check_status. */
    method RequestTest(ticket: nat) returns (s: TestStatus)
      modifies this`tested
      ensures tested == old(tested) + [ticket]
      ensures s == Finished <==> ticket in done
      ensures s == Broken <==> ticket !in done && ticket in broken
    {
      s := if ticket in done then Finished else if ticket in broken then Broken else Running;
      tested := tested + [ticket];
    }

    /** The network brings m: to the oldest posted receive that takes it, or
        to the unexpected messages. */
    method Arrive(m: Message)
      modifies this`unexpected, this`posted, this`given
      ensures var i, q := FirstTaker(old(posted), m), old(posted);
              if i < |q| then
                posted == Without(q, i) && given == old(given)[q[i].ticket := m] && unexpected == old(unexpected)
              else
                posted == q && given == old(given) && unexpected == old(unexpected) + [m]
    {
      var i := FirstTaker(posted, m);
      if i < |posted| {
        given := given[posted[i].ticket := m];
        posted := Without(posted, i);
      } else {
        unexpected := unexpected + [m];
      }
    }

    /** ucp_tag_send_nbx without immediate completion. */
    method SendNbx(dest: bv32, tag: bv64) returns (s: StatusPtr)
      modifies this`failures, this`sent
      ensures s == InProgress || s == Failed
      ensures failures == old(failures) + if s == Failed then 1 else 0
      ensures s == InProgress ==> sent == old(sent) + [P.Outgoing(dest, tag)]
    {
      if * {
        s := InProgress;
        sent := sent + [P.Outgoing(dest, tag)];
      } else {
        s, failures := Failed, failures + 1;
      }
    }

    /** ucp_tag_recv_nbx without immediate completion: the oldest unexpected
        match, or wait. */
    method RecvNbx(ticket: nat, want: Selector) returns (s: StatusPtr)
      modifies this`unexpected, this`posted, this`given, this`failures
      ensures s == InProgress || s == Failed
      ensures failures == old(failures) + if s == Failed then 1 else 0
      ensures s == InProgress ==>
                var i := FirstMatch(old(unexpected), want);
                if i < |old(unexpected)| then
                  unexpected == Without(old(unexpected), i) && posted == old(posted)
                  && given == old(given)[ticket := old(unexpected)[i]]
                else
                  unexpected == old(unexpected) && given == old(given)
                  && posted == old(posted) + [Posted(ticket, want)]
    {
      if * {
        s := InProgress;
        var i := FirstMatch(unexpected, want);
        if i < |unexpected| {
          given := given[ticket := unexpected[i]];
          unexpected := Without(unexpected, i);
        } else {
          posted := posted + [Posted(ticket, want)];
        }
      } else {
        s, failures := Failed, failures + 1;
      }
    }

    /** ucp_tag_msg_recv_nbx. */
    method MsgRecvNbx(ticket: nat, m: Message) returns (s: StatusPtr)
      modifies this`given, this`failures
      ensures s == InProgress || s == Failed
      ensures failures == old(failures) + if s == Failed then 1 else 0
      ensures s == InProgress ==> given == old(given)[ticket := m]
    {
      if * {
        s := InProgress;
        given := given[ticket := m];
      } else {
        s, failures := Failed, failures + 1;
      }
    }
  }

  datatype Status = Success | RequestFailure | RegistrationError | InternalError | Aborted

  class Handle {
    const queues: Q.RequestLists       // request_queues
    ghost var sendFree: seq<Request>   // the requests on their free chains
    ghost var recvFree: seq<Request>
    ghost var probeFree: seq<Request>
    ghost var sendQ: seq<Request>      // and in their lists
    ghost var recvQ: seq<Request>
    const ops: Vector<Request>
    var sendCount: int
    const recvList: M.Channels
    const ucx: Ucx
    const cache: C.BufferCache
    var run: bool
    var nodeCount: nat                 // request nodes so far
    var tickets: nat                   // submissions so far
    ghost var inFlight: seq<Request>   // contents of ops
    ghost var batch: seq<Request>      // the detached chain process_recv_queue_ walks
    ghost var user: seq<Request>       // requests in user hands
    ghost var home: seq<E.Kind>
    ghost var exited: bool
    ghost var arrived: seq<Message>
    ghost var dropped: seq<Message>
    ghost var log: seq<E.Completion>

    ghost predicate Valid()
      reads this, sendFree, recvFree, probeFree, sendQ, recvQ, batch, inFlight, user, ops, ops.ptr, recvList`content
    {
      && ops.Valid() && inFlight == ops.Contents()
      && |recvList.content| == MAX_CHANNELS
      && |home| == nodeCount
      && At(sendFree, Free(E.SendKind)) && At(recvFree, Free(E.RecvKind)) && At(probeFree, Free(E.ProbeKind))
      && At(sendQ, SendQueue) && At(recvQ, RecvQueue) && At(batch, Batch)
      && At(inFlight, InFlight) && At(user, InHand)
    }

    /** The requests whose nodes the lists should hold. */
    ghost function Chains(): (v: Q.View)
      reads this`sendFree, this`recvFree, this`probeFree, this`sendQ, this`recvQ, this`batch
    {
      Q.View(sendFree, recvFree, probeFree, sendQ, recvQ, batch)
    }

    /** The lists hold the nodes of just these requests, in this order; the
        probe list holds none. */
    ghost predicate Chained()
      reads this`sendFree, this`recvFree, this`probeFree, this`sendQ, this`recvQ, this`batch
      reads queues, queues.lists, queues.nodes
    {
      queues.Holds(Chains())
    }

    /** A request that is in no collection has its node in no chain. */
    lemma ApartLacks(r: Request)
      requires Apart(r)
      ensures Chains().Lacks(r)
    {
    }

    ghost function Pool(k: E.Kind): seq<Request>
      reads this`sendFree, this`recvFree, this`probeFree
    {
      match k case SendKind => sendFree case RecvKind => recvFree case ProbeKind => probeFree
    }

    ghost function Index(): Index
      reads this, recvList`content, ucx`unexpected, ucx`posted, ucx`given
    {
      Matching.Index(recvList.content, ucx.unexpected, ucx.posted, ucx.given)
    }

    /** The engine state this handle represents. */
    ghost function Model(): E.State
      reads this, sendFree, recvFree, probeFree, sendQ, recvQ, batch, inFlight, user, recvList`content,
            ucx`unexpected, ucx`posted, ucx`given
    {
      E.State(home, E.Pools(Ids(sendFree), Ids(recvFree), Ids(probeFree)),
              Snaps(sendQ), Snaps(recvQ), Snaps(batch), Snaps(inFlight), Snaps(user),
              sendCount, Index(), run, exited, arrived, dropped, tickets, log)
    }

    constructor (queues: Q.RequestLists, ops: Vector<Request>, recvList: M.Channels, ucx: Ucx, cache: C.BufferCache)
      requires queues.Holds(Q.View([], [], [], [], [], [])) && ops.Valid() && ops.Contents() == []
      requires recvList.content == E.Empty().index.lists
      requires ucx.unexpected == [] && ucx.posted == [] && ucx.given == map[]
      ensures this.queues == queues && this.ops == ops && this.recvList == recvList && this.ucx == ucx
      ensures this.cache == cache && Valid() && Chained() && Model() == E.Empty() && run
      ensures forall k :: Pool(k) == []
    {
      hide At, Snaps, Ids, Q.RequestLists.Holds;
      this.queues, this.ops, this.recvList, this.ucx, this.cache := queues, ops, recvList, ucx, cache;
      sendFree, recvFree, probeFree, sendQ, recvQ := [], [], [], [], [];
      sendCount, run, nodeCount, tickets := 0, true, 0, 0;
      inFlight, batch, user, home, exited, arrived, dropped, log := [], [], [], [], false, [], [], [];
      new;
      NothingThere();
    }

    /** r is in none of the collections. */
    ghost predicate Apart(r: Request)
      reads this
    {
      && r !in sendFree && r !in recvFree && r !in probeFree && r !in sendQ && r !in recvQ
      && r !in batch && r !in inFlight && r !in user
    }

    /** An object is at most in the collection its place names. */
    lemma PlaceTells(r: Request)
      requires Valid()
      ensures r in sendFree ==> r.place == Free(E.SendKind)
      ensures r in recvFree ==> r.place == Free(E.RecvKind)
      ensures r in probeFree ==> r.place == Free(E.ProbeKind)
      ensures r in sendQ ==> r.place == SendQueue
      ensures r in recvQ ==> r.place == RecvQueue
      ensures r in batch ==> r.place == Batch
      ensures r in inFlight ==> r.place == InFlight
      ensures r in user ==> r.place == InHand
    {
    }

    /** clh_request_allocate_ */
    method AllocateNode(kind: E.Kind) returns (r: Request)
      requires Valid()
      modifies this`nodeCount, this`home
      ensures Valid() && Apart(r) && fresh(r) && r.Linked() && fresh(r.link) && r.node == |old(Model()).home|
      ensures r.kind == kind && r.place == Free(kind)
      ensures Model() == old(Model()).(home := old(Model()).home + [kind])
    {
      hide At, Snaps, Ids, M.Channels.Valid;
      r := new Request(nodeCount, kind);
      nodeCount, home := nodeCount + 1, home + [kind];
    }

    lemma CountersAgree()
      ensures Model().tickets == tickets
      ensures forall k :: E.FreeOf(Model().free, k) == Ids(Pool(k))
    {
    }

    /** clh_list_release_node on the pool of the request's type. */
    method PushFree(r: Request)
      requires Valid() && Chained() && Apart(r) && r.Linked() && r.place == Free(r.kind)
      modifies this`sendFree, this`recvFree, this`probeFree, queues, queues.lists, r.link
      ensures Valid() && Chained() && queues.Grown({r.link})
      ensures Chains() == old(Chains()).WithFree(r.kind, [r] + old(Pool(r.kind)))
      ensures Model() == old(Model()).(free :=
                E.WithFree(old(Model()).free, r.kind, [r.node] + E.FreeOf(old(Model()).free, r.kind)))
    {
      hide At, Snaps, Ids, Valid, Model, Q.RequestLists.Holds;
      ApartLacks(r);
      queues.ReleaseRequest(r.kind, r.link, r, Chains());
      NotePushed(r);
    }

    ghost method NotePushed(r: Request)
      requires Valid() && Apart(r) && r.Linked() && r.place == Free(r.kind)
      modifies this`sendFree, this`recvFree, this`probeFree
      ensures Valid()
      ensures Chains() == old(Chains()).WithFree(r.kind, [r] + old(Pool(r.kind)))
      ensures Model() == old(Model()).(free :=
                E.WithFree(old(Model()).free, r.kind, [r.node] + E.FreeOf(old(Model()).free, r.kind)))
    {
      hide At, Snaps, Ids, M.Channels.Valid;
      AtPrepend(Pool(r.kind), r, Free(r.kind));
      match r.kind
      case SendKind => sendFree := [r] + sendFree;
      case RecvKind => recvFree := [r] + recvFree;
      case ProbeKind => probeFree := [r] + probeFree;
    }

    /** The head of a free chain. */
    method PopFree(kind: E.Kind) returns (node: Q.Node, r: Request)
      requires Valid() && Chained() && Pool(kind) != []
      modifies this`sendFree, this`recvFree, this`probeFree
      modifies queues.lists, queues.nodes
      ensures Valid() && Chained() && Apart(r) && r.Linked() && r == old(Pool(kind))[0]
      ensures node in queues.nodes && node.owner == r
      ensures Chains() == old(Chains()).WithFree(kind, old(Pool(kind))[1..])
      ensures Ids(old(Pool(kind))) == [r.node] + Ids(old(Pool(kind))[1..])
      ensures Model() == old(Model()).(free := E.WithFree(old(Model()).free, kind, Ids(old(Pool(kind))[1..])))
    {
      hide At, Snaps, Ids, Valid, Model, Apart, Q.RequestLists.Holds;
      node, r := queues.TakeRequest(kind, Chains());
      NoteTaken(kind);
    }

    ghost method NoteTaken(kind: E.Kind)
      requires Valid() && Pool(kind) != []
      modifies this`sendFree, this`recvFree, this`probeFree
      ensures Valid() && Apart(old(Pool(kind))[0]) && old(Pool(kind))[0].Linked()
      ensures Chains() == old(Chains()).WithFree(kind, old(Pool(kind))[1..])
      ensures Ids(old(Pool(kind))) == [old(Pool(kind))[0].node] + Ids(old(Pool(kind))[1..])
      ensures Model() == old(Model()).(free := E.WithFree(old(Model()).free, kind, Ids(old(Pool(kind))[1..])))
    {
      hide At, Snaps, Ids, M.Channels.Valid;
      HeadApart(kind);
      match kind
      case SendKind => sendFree := sendFree[1..];
      case RecvKind => recvFree := recvFree[1..];
      case ProbeKind => probeFree := probeFree[1..];
    }

    lemma HeadApart(kind: E.Kind)
      requires Valid() && Pool(kind) != []
      ensures var q := Pool(kind);
              && At(q[1..], Free(kind)) && q[0].Linked() && Ids(q) == [q[0].node] + Ids(q[1..])
              && q[0] !in q[1..] && (kind.SendKind? || q[0] !in sendFree)
              && (kind.RecvKind? || q[0] !in recvFree) && (kind.ProbeKind? || q[0] !in probeFree)
              && q[0] !in sendQ && q[0] !in recvQ && q[0] !in batch && q[0] !in inFlight && q[0] !in user
    {
      hide At, Snaps, Ids, M.Channels.Valid;
      AtHead(Pool(kind), Free(kind));
      PlaceTells(Pool(kind)[0]);
    }

    /** The first part of clh_list_new_node: an empty free chain is given a new
        node. */
    method EnsureFree(kind: E.Kind)
      requires Valid() && Chained()
      modifies this`sendFree, this`recvFree, this`probeFree, this`nodeCount, this`home, queues, queues.lists
      ensures Valid() && Chained() && queues.Grown({})
      ensures Chains() == old(Chains()).WithFree(kind, Pool(kind))
      ensures if old(Pool(kind)) == [] then |Pool(kind)| == 1 && fresh(Pool(kind)[0]) && fresh(Pool(kind)[0].link)
              else Pool(kind) == old(Pool(kind))
      ensures Model() == WithSpare(old(Model()), kind) && E.FreeOf(Model().free, kind) == Ids(Pool(kind))
    {
      hide At, Snaps, Valid, Model, Apart, Q.RequestLists.Holds;
      CountersAgree();
      queues.EndsTell(Chains());
      if queues.Of(kind).freeNodes == null {
        var r := AllocateNode(kind);
        PushFree(r);
      }
      CountersAgree();
    }

    /** clh_list_new_node, and the request behind the node. */
    method NewNode(kind: E.Kind) returns (node: Q.Node, r: Request)
      requires Valid() && Chained()
      modifies this`sendFree, this`recvFree, this`probeFree, this`nodeCount, this`home
      modifies queues, queues.lists, queues.nodes
      ensures Valid() && Chained() && Apart(r) && r.Linked() && node in queues.nodes && node.owner == r
      ensures queues.Grown({})
      ensures Chains() == old(Chains()).WithFree(kind, Rest(old(Pool(kind)))) && user == old(user)
      ensures if old(Pool(kind)) == [] then fresh(r) && fresh(r.link)
              else
                && r == old(Pool(kind))[0] && r.Fields() == old(Pool(kind)[0].Fields())
                && r.link == old(Pool(kind)[0].link)
      ensures r.node == E.NodeFor(old(Model()), kind)
      ensures Model() == E.AfterNew(old(Model()), kind)
      ensures Model().tickets == tickets
    {
      hide At, Snaps, Ids, Valid, Model, Apart, Chained, WithSpare, E.AfterNew, E.NodeFor, E.WithFree, E.FreeOf;
      EnsureFree(kind);
      TakeSpare(old(Model()), kind);
      node, r := PopFree(kind);
      CountersAgree();
    }

    // ----- sending -----

    /** The writes an entry point does to a request before it queues it. */
    method Rewrite(r: Request, kind: E.Kind, completed: bool, body: E.Body, ghost place: Place, mem: nat)
      requires Valid() && Chained() && Apart(r) && r.Linked()
      modifies r`kind, r`completed, r`body, r`ticket, r`place, r`mem
      ensures Valid() && Chained() && Apart(r) && r.Linked() && Model() == old(Model())
      ensures r.Snap() == E.Request(r.node, kind, completed, old(r.Fields()), body, tickets)
      ensures r.place == place && r.mem == mem
    {
      hide At, Snaps, Ids, Valid, Chained, Model;
      r.Prepare(kind, completed, body, tickets, place);
      r.mem := mem;
    }

    /** The writes of clh_send to the identity of its request. */
    method Address(r: Request, channel: bv32, source: bv32, tag: bv32)
      requires Valid() && Chained() && Apart(r) && r.Linked()
      modifies r`channel, r`source, r`tag
      ensures Valid() && Chained() && Apart(r) && r.Linked() && Model() == old(Model())
      ensures r.Fields() == Protocol.Fields(channel, source, tag)
    {
      hide At, Snaps, Ids, Valid, Chained, Model;
      r.SetFields(channel, source, tag);
    }

    /** clh_list_push_node on the send list. */
    method PushSend(node: Q.Node, r: Request)
      requires Valid() && Chained() && Apart(r) && r.Linked() && r.place == SendQueue && node.owner == r
      modifies this`sendQ, this`tickets, queues, queues.lists, queues.nodes, node
      ensures Valid() && Chained() && sendQ == old(sendQ) + [r] && queues.Grown({node})
      ensures Model() == old(Model()).(sendQ := old(Model().sendQ) + [r.Snap()], tickets := old(Model().tickets) + 1)
    {
      hide At, Snaps, Ids, Valid, Model, Q.RequestLists.Holds;
      ApartLacks(r);
      queues.PushRequest(E.SendKind, node, r, Chains());
      NoteSend(r);
    }

    method NoteSend(r: Request)
      requires Valid() && Apart(r) && r.Linked() && r.place == SendQueue
      modifies this`sendQ, this`tickets
      ensures Valid() && sendQ == old(sendQ) + [r]
      ensures Model() == old(Model()).(sendQ := old(Model().sendQ) + [r.Snap()], tickets := old(Model().tickets) + 1)
    {
      hide At, Snaps, Ids, M.Channels.Valid;
      AtAppend(sendQ, r, SendQueue);
      sendQ, tickets := sendQ + [r], tickets + 1;
    }

    /** The same on the receive list. */
    method PushRecv(node: Q.Node, r: Request)
      requires Valid() && Chained() && Apart(r) && r.Linked() && r.place == RecvQueue && node.owner == r
      modifies this`recvQ, this`tickets, queues, queues.lists, queues.nodes, node
      ensures Valid() && Chained() && recvQ == old(recvQ) + [r] && queues.Grown({node})
      ensures Model() == old(Model()).(recvQ := old(Model().recvQ) + [r.Snap()], tickets := old(Model().tickets) + 1)
    {
      hide At, Snaps, Ids, Valid, Model, Q.RequestLists.Holds;
      ApartLacks(r);
      queues.PushRequest(E.RecvKind, node, r, Chains());
      NoteRecv(r);
    }

    method NoteRecv(r: Request)
      requires Valid() && Apart(r) && r.Linked() && r.place == RecvQueue
      modifies this`recvQ, this`tickets
      ensures Valid() && recvQ == old(recvQ) + [r]
      ensures Model() == old(Model()).(recvQ := old(Model().recvQ) + [r.Snap()], tickets := old(Model().tickets) + 1)
    {
      hide At, Snaps, Ids, M.Channels.Valid;
      AtAppend(recvQ, r, RecvQueue);
      recvQ, tickets := recvQ + [r], tickets + 1;
    }

    /** clh_send by node `me`: the returned request is the last in the queue. */
    method Send(channel: bv32, me: bv32, dest: bv32, tag: bv32, mem: nat) returns (r: Request)
      requires Valid() && Chained()
      modifies this`sendFree, this`recvFree, this`probeFree, this`nodeCount, this`home, this`sendQ, this`tickets
      modifies First(sendFree), queues, queues.lists, queues.nodes
      ensures Valid() && Chained() && queues.Grown({}) && r.mem == mem
      ensures Chains() == old(Chains()).(sendFree := Rest(old(sendFree)), sendQ := old(sendQ) + [r])
      ensures if old(sendFree) == [] then fresh(r) && fresh(r.link)
              else r == old(sendFree)[0] && r.link == old(sendFree[0].link)
      ensures Model() == E.DoSend(old(Model()), channel, me, dest, tag)
      ensures A.SendFor(r.Snap(), channel, me, dest, tag)
    {
      hide At, Snaps, Ids, Valid, Chained, Model, Apart, E.AfterNew, E.NodeFor, EncodeTag, A.SendFor;
      var node;
      node, r := NewNode(E.SendKind);
      QueueSend(node, r, channel, me, dest, tag, mem);
      LastsAgree();
      A.SendLeaves(old(Model()), channel, me, dest, tag);
    }

    lemma LastsAgree()
      ensures sendQ != [] ==> Model().sendQ != [] && Last(Model().sendQ) == Last(sendQ).Snap()
      ensures recvQ != [] ==> Model().recvQ != [] && Last(Model().recvQ) == Last(recvQ).Snap()
      ensures user != [] ==> Model().user != [] && Last(Model().user) == Last(user).Snap()
    {
    }

    /** The rest of clh_send. */
    method QueueSend(node: Q.Node, r: Request, channel: bv32, me: bv32, dest: bv32, tag: bv32, mem: nat)
      requires Valid() && Chained() && Apart(r) && r.Linked() && node.owner == r
      modifies this`sendQ, this`tickets, queues, queues.lists, queues.nodes, node
      modifies r`kind, r`completed, r`body, r`ticket, r`place, r`mem, r`channel, r`source, r`tag
      ensures Valid() && Chained() && queues.Grown({node}) && r.mem == mem && r.link == old(r.link)
      ensures Chains() == old(Chains()).(sendQ := old(sendQ) + [r])
      ensures Model() == old(Model()).(tickets := old(Model()).tickets + 1, sendQ := old(Model()).sendQ + [
                E.Request(r.node, E.SendKind, false, Protocol.Fields(channel, me, tag),
                          E.SendBody(EncodeTag(channel, me, tag), dest), old(Model()).tickets)])
    {
      hide At, Snaps, Ids, Valid, Chained, Model, Apart, EncodeTag;
      TicketsAgree();
      Address(r, channel, me, tag);
      Rewrite(r, E.SendKind, false, E.SendBody(EncodeTag(channel, me, tag), dest), SendQueue, mem);
      PushSend(node, r);
    }

    // ----- receiving -----

    /** A request is made a receive and goes to the end of the receive list. */
    method QueueRecv(node: Q.Node, r: Request, kind: E.Kind, body: E.Body, mem: nat)
      requires Valid() && Chained() && Apart(r) && r.Linked() && node.owner == r
      modifies this`recvQ, this`tickets, queues, queues.lists, queues.nodes, node
      modifies r`kind, r`completed, r`body, r`ticket, r`place, r`mem
      ensures Valid() && Chained() && queues.Grown({node}) && r.mem == mem && r.link == old(r.link)
      ensures Chains() == old(Chains()).(recvQ := old(recvQ) + [r])
      ensures r.Fields() == old(r.Fields())
      ensures Model() == old(Model()).(tickets := old(Model()).tickets + 1, recvQ := old(Model()).recvQ + [
                E.Request(r.node, kind, false, r.Fields(), body, old(Model()).tickets)])
    {
      hide At, Snaps, Ids, Valid, Chained, Model, Apart;
      TicketsAgree();
      Rewrite(r, kind, false, body, RecvQueue, mem);
      PushRecv(node, r);
    }

    /** clh_recv_: the node's channel, source and tag stay what they were. */
    method Recv_(want: Selector, mem: nat) returns (r: Request)
      requires Valid() && Chained()
      modifies this`sendFree, this`recvFree, this`probeFree, this`nodeCount, this`home, this`recvQ, this`tickets
      modifies First(recvFree), queues, queues.lists, queues.nodes
      ensures Valid() && Chained() && queues.Grown({}) && r.mem == mem
      ensures Chains() == old(Chains()).(recvFree := Rest(old(recvFree)), recvQ := old(recvQ) + [r])
      ensures Model() == E.DoRecv(old(Model()), want, r.Fields()) && A.Waits(r.Snap(), want, r.Fields())
      ensures if old(recvFree) == [] then fresh(r) && fresh(r.link)
              else r == old(recvFree)[0] && r.Fields() == old(recvFree[0].Fields()) && r.link == old(recvFree[0].link)
    {
      hide At, Snaps, Ids, Valid, Chained, Model, Apart, E.AfterNew, E.NodeFor;
      var node;
      node, r := NewNode(E.RecvKind);
      QueueRecv(node, r, E.RecvKind, E.RecvBody(want, None), mem);
      LastsAgree();
      A.RecvLeaves(old(Model()), want, r.Fields());
    }

    method Recv(channel: bv32, tag: bv32, tagMask: bv32, mem: nat) returns (r: Request)
      requires Valid() && Chained()
      modifies this`sendFree, this`recvFree, this`probeFree, this`nodeCount, this`home, this`recvQ, this`tickets
      modifies First(recvFree), queues, queues.lists, queues.nodes
      ensures Valid() && Chained() && queues.Grown({}) && r.mem == mem
      ensures Chains() == old(Chains()).(recvFree := Rest(old(recvFree)), recvQ := old(recvQ) + [r])
      ensures Model() == E.DoRecv(old(Model()), AnySource(channel, tag, tagMask), r.Fields())
      ensures A.RecvFor(r.Snap(), A.Any(channel, tag, tagMask), r.Fields())
      ensures if old(recvFree) == [] then fresh(r) && fresh(r.link)
              else r == old(recvFree)[0] && r.Fields() == old(recvFree[0].Fields()) && r.link == old(recvFree[0].link)
    {
      hide Valid, Chained, Model, A.Waits, A.RecvFor, E.DoRecv, EncodeTag;
      r := Recv_(Selector(EncodeTag(channel, 0, tag), CHANNEL_MASK | (tagMask as bv64)), mem);
      A.WaitsFor(r.Snap(), A.Any(channel, tag, tagMask), r.Fields());
    }

    method RecvFrom(channel: bv32, source: bv32, tag: bv32, tagMask: bv32, mem: nat) returns (r: Request)
      requires Valid() && Chained()
      modifies this`sendFree, this`recvFree, this`probeFree, this`nodeCount, this`home, this`recvQ, this`tickets
      modifies First(recvFree), queues, queues.lists, queues.nodes
      ensures Valid() && Chained() && queues.Grown({}) && r.mem == mem
      ensures Chains() == old(Chains()).(recvFree := Rest(old(recvFree)), recvQ := old(recvQ) + [r])
      ensures Model() == E.DoRecv(old(Model()), FromSource(channel, source, tag, tagMask), r.Fields())
      ensures A.RecvFor(r.Snap(), A.From(channel, source, tag, tagMask), r.Fields())
      ensures if old(recvFree) == [] then fresh(r) && fresh(r.link)
              else r == old(recvFree)[0] && r.Fields() == old(recvFree[0].Fields()) && r.link == old(recvFree[0].link)
    {
      hide Valid, Chained, Model, A.Waits, A.RecvFor, E.DoRecv, EncodeTag;
      r := Recv_(Selector(EncodeTag(channel, source, tag), CHANNEL_MASK | SENDER_ID_MASK | (tagMask as bv64)), mem);
      A.WaitsFor(r.Snap(), A.From(channel, source, tag, tagMask), r.Fields());
    }

    /** Request i of the user's leaves the user's hands. */
    ghost method TakeFromUser(r: Request, i: nat)
      requires Valid() && i < |user| && user[i] == r
      modifies this`user
      ensures Valid() && Apart(r) && r.Linked() && user == Without(old(user), i)
      ensures i < |old(Model().user)| && old(Model().user)[i] == r.Snap()
      ensures Model() == old(Model()).(user := Without(old(Model().user), i))
    {
      hide At, Snaps, M.Channels.Valid;
      AtWithout(user, i, InHand);
      user := Without(user, i);
      PlaceTells(r);
    }

    /** clh_request_recv: the node of a probe goes into the receive list. */
    method RequestRecv(r: Request, mem: nat, ghost i: nat)
      requires Valid() && Chained() && i < |user| && user[i] == r && r.body.ProbeBody?
      modifies this`user, this`recvQ, this`tickets, queues, queues.lists, queues.nodes, r.link
      modifies r`kind, r`completed, r`body, r`ticket, r`place, r`mem
      ensures Valid() && Chained() && r.link == old(r.link) && queues.Grown({r.link})
      ensures user == Without(old(user), i) && Chains() == old(Chains()).(recvQ := old(recvQ) + [r]) && r.mem == mem
      ensures i < |old(Model()).user| && old(Model()).user[i].body.ProbeBody?
      ensures Model() == E.DoRequestRecv(old(Model()), i) && A.ReceiveOf(old(Model()).user[i], r.Snap())
      ensures old(recvList.Valid()) ==> recvList.Valid()
      ensures old(cache.Valid()) ==> cache.Valid()
    {
      hide At, Snaps, Ids, Valid, Chained, Model, Without, A.ReceiveOf, Exactly, M.Channels.Valid,
        C.BufferCache.Valid, E.DoRequestRecv, Request.Linked;
      Requeue(r, mem, i);
      LastsAgree();
      A.RequestRecvLeaves(old(Model()), i);
    }

    method Requeue(r: Request, mem: nat, ghost i: nat)
      requires Valid() && Chained() && i < |user| && user[i] == r && r.body.ProbeBody?
      modifies this`user, this`recvQ, this`tickets, queues, queues.lists, queues.nodes, r.link
      modifies r`kind, r`completed, r`body, r`ticket, r`place, r`mem
      ensures Valid() && Chained() && r.link == old(r.link) && queues.Grown({r.link})
      ensures user == Without(old(user), i) && Chains() == old(Chains()).(recvQ := old(recvQ) + [r]) && r.mem == mem
      ensures i < |old(Model()).user| && old(Model()).user[i].body.ProbeBody?
      ensures Model() == E.DoRequestRecv(old(Model()), i)
    {
      hide At, Snaps, Ids, Valid, Chained, Model, Without, Exactly;
      TakeFromUser(r, i);
      var b := r.body;
      QueueRecv(r.link, r, r.kind, E.RecvBody(Exactly(b.senderTag), if b.remove then b.found else None), mem);
    }

    lemma TicketsAgree()
      ensures Model().tickets == tickets && Model().user == Snaps(user)
    {
    }

    // ----- probing -----

    ghost method GiveToUser(r: Request)
      requires Valid() && Apart(r) && r.Linked() && r.place == InHand
      modifies this`user
      ensures Valid() && user == old(user) + [r]
      ensures Model() == old(Model()).(user := old(Model().user) + [r.Snap()])
    {
      hide At, Snaps, M.Channels.Valid;
      AtAppend(user, r, InHand);
      user := user + [r];
    }

    /** message_search on list c. */
    method FindStored(c: nat, want: Selector) returns (node: L.Node?<M.Slot>, ghost i: nat)
      requires Valid() && recvList.Valid() && c < MAX_CHANNELS
      ensures Shaped(Index()) && |recvList.all| == MAX_CHANNELS
      ensures i == FirstMatch(Index().lists[c], want) && node == L.At(recvList.all[c].items, i)
      ensures node != null <==> HasMatch(Index().lists[c], want)
      ensures node != null ==> node.data.Content() == Index().lists[c][i]
    {
      hide At, FirstMatch;
      node, i := recvList.Find(c, want);
    }

    method RemoveStored(c: nat, node: L.Node<M.Slot>, ghost i: nat)
      requires Valid() && recvList.Valid() && c < MAX_CHANNELS
      requires i < |Index().lists[c]| && node == L.At(recvList.all[c].items, i)
      modifies recvList`content, recvList.all, recvList.repr
      ensures Valid() && recvList.Valid()
      ensures var x := old(Index());
              Model() == old(Model()).(index := x.(lists := x.lists[c := Without(x.lists[c], i)]))
    {
      hide At, Snaps, Ids, M.Channels.Valid;
      recvList.Remove(c, node, i);
    }

    /** The search of clh_probe_, and the removal of what it hit. */
    method ProbeList(r: Request, c: nat, want: Selector, remove: bool)
      requires Valid() && recvList.Valid() && Apart(r) && c < MAX_CHANNELS
      modifies r`kind, r`completed, r`body, r`ticket, r`place, r`channel, r`source, r`tag
      modifies recvList`content, recvList.all, recvList.repr
      ensures Valid() && recvList.Valid() && r.place == InHand
      ensures Shaped(old(Index()))
      ensures r.Snap() == E.Probed(r.node, old(Index()).lists[c], want, remove, old(r.Fields()), tickets)
      ensures Model() == old(Model()).(index :=
                if HasMatch(old(Index()).lists[c], want) && remove then Take(old(Index()), c, want) else old(Index()))
    {
      hide At, Snaps, Ids, Valid, Model, E.Probed, FirstMatch, M.Channels.Valid;
      ListsAgree();
      var node, i := FindStored(c, want);
      var found := if node != null then Some(node.data.Content()) else None;
      FillProbe(r, found, recvList.content[c], want, remove, tickets);
      if node != null && remove {
        RemoveStored(c, node, i);
      }
    }

    /** clh_probe_ */
    method Probe_(channel: bv32, want: Selector, remove: bool) returns (r: Request, ghost left: Fields)
      requires Valid() && Chained() && recvList.Valid() && channel < 0x100
      modifies this`sendFree, this`recvFree, this`probeFree, this`nodeCount, this`home, this`user
      modifies First(probeFree), queues, queues.lists, queues.nodes
      modifies recvList`content, recvList.all, recvList.repr
      ensures Valid() && Chained() && recvList.Valid() && queues.Grown({})
      ensures user == old(user) + [r] && Chains() == old(Chains()).(probeFree := Rest(old(probeFree)))
      ensures Model() == E.DoProbe(old(Model()), channel, want, remove, left)
      ensures A.Answers(r.Snap(), old(Model()).index.lists[channel as nat], want, remove, left)
      ensures if old(probeFree) == [] then fresh(r) && fresh(r.link)
              else r == old(probeFree)[0] && left == old(probeFree[0].Fields()) && r.link == old(probeFree[0].link)
    {
      hide At, Snaps, Ids, Valid, Chained, Index, Model, Apart, E.AfterNew, E.NodeFor, E.Probed, FirstMatch, HasMatch,
        Take, M.Channels.Valid, A.Answers;
      r := ProbeNode();
      left := r.Fields();
      Look(r, channel as nat, want, remove);
      LastsAgree();
      A.ProbeLeaves(old(Model()), channel, want, remove, left);
    }

    /** The node of a probe; it will be in no list. */
    method ProbeNode() returns (r: Request)
      requires Valid() && Chained() && recvList.Valid()
      modifies this`sendFree, this`recvFree, this`probeFree, this`nodeCount, this`home
      modifies queues, queues.lists, queues.nodes
      ensures Valid() && Chained() && recvList.Valid() && Apart(r) && r.Linked() && queues.Grown({})
      ensures user == old(user) && recvList.repr == old(recvList.repr)
      ensures Chains() == old(Chains()).(probeFree := Rest(old(probeFree)))
      ensures if old(probeFree) == [] then fresh(r) && fresh(r.link)
              else
                && r == old(probeFree)[0] && r.Fields() == old(probeFree[0].Fields())
                && r.link == old(probeFree[0].link)
      ensures r.node == E.NodeFor(old(Model()), E.ProbeKind) && Model() == E.AfterNew(old(Model()), E.ProbeKind)
    {
      hide At, Snaps, Ids, Valid, Chained, Model, Apart, E.AfterNew, E.NodeFor, M.Channels.Valid;
      var node;
      node, r := NewNode(E.ProbeKind);
    }

    method Look(r: Request, c: nat, want: Selector, remove: bool)
      requires Valid() && Chained() && recvList.Valid() && Apart(r) && r.Linked() && c < MAX_CHANNELS
      modifies r`kind, r`completed, r`body, r`ticket, r`place, r`channel, r`source, r`tag
      modifies this`user, recvList`content, recvList.all, recvList.repr
      ensures Valid() && Chained() && recvList.Valid() && user == old(user) + [r] && Shaped(old(Model()).index)
      ensures r.link == old(r.link) && Chains() == old(Chains())
      ensures var s := old(Model());
              var list := s.index.lists[c];
              Model() == s.(user := s.user + [E.Probed(r.node, list, want, remove, old(r.Fields()), s.tickets)],
                index := if HasMatch(list, want) && remove then Take(s.index, c, want) else s.index)
    {
      hide At, Snaps, Ids, Valid, Chained, Model, Index, E.Probed, FirstMatch, HasMatch, Take, M.Channels.Valid;
      ListsAgree();
      TicketsAgree();
      ProbeList(r, c, want, remove);
      GiveToUser(r);
    }

    lemma ListsAgree()
      requires Valid()
      ensures Shaped(Model().index) && Model().index.lists == recvList.content && Model().index == Index()
      ensures |recvList.content| == MAX_CHANNELS
    {
    }

    // ----- releasing -----

    /** clh_request_release: the pool is chosen by the type of the request. */
    method Release(r: Request, ghost i: nat)
      requires Valid() && Chained() && i < |user| && user[i] == r
      modifies this`user, this`sendFree, this`recvFree, this`probeFree, this`dropped, r`place
      modifies queues, queues.lists, r.link
      ensures Valid() && Chained() && queues.Grown({r.link})
      ensures user == Without(old(user), i)
      ensures Chains() == old(Chains()).WithFree(r.kind, [r] + old(Pool(r.kind)))
      ensures i < |old(Model()).user| && Model() == E.DoRelease(old(Model()), i)
    {
      hide At, Snaps, Ids, Valid, Chained, Model, E.FreeOf, E.WithFree, Without;
      ghost var snap := r.Snap();
      TakeFromUser(r, i);
      Moved(r, Free(r.kind));
      PushFree(r);
      Discard(E.Owned(snap));
    }

    /** History: a message nobody can receive any more. */
    ghost method Discard(m: Option<Message>)
      requires Valid()
      modifies this`dropped
      ensures Valid()
      ensures Model() == old(Model()).(dropped := old(Model()).dropped + (if m.Some? then [m.value] else []))
    {
      hide At, Snaps, Ids, M.Channels.Valid;
      dropped := dropped + (if m.Some? then [m.value] else []);
    }

    /** r is being moved between collections. */
    ghost method Moved(r: Request, p: Place)
      requires Valid() && Apart(r)
      modifies r`place
      ensures Valid() && Apart(r) && r.place == p && r.Snap() == old(r.Snap()) && Model() == old(Model())
    {
      hide At, Snaps, Ids, Valid, Model;
      r.place := p;
    }

    // ----- the transport moves on -----

    /** A message arrives; `m.id` only numbers it. */
    method Arrival(m: Message)
      requires Valid() && m.id == |arrived|
      modifies this`arrived, ucx`unexpected, ucx`posted, ucx`given
      ensures Valid() && Model() == E.DoArrival(old(Model()), m)
    {
      hide At, Snaps, Ids, FirstTaker;
      ucx.Arrive(m);
      arrived := arrived + [m];
    }

    /** The transport finishes what it can of `finish`, and breaks `fail`: a
        receive finishes only once it has been given a message. */
    method Progress(finish: set<nat>, fail: set<nat>)
      requires Valid() && D.Typed(Model())
      modifies ucx`done, ucx`broken
      ensures Valid() && Model() == old(Model()) && FinishedAreGiven()
      ensures ucx.broken == fail && ucx.done == P.Finishing(Model(), finish)
    {
      hide At, Snaps, Ids, D.Typed;
      var done := Finishable(finish);
      ucx.done, ucx.broken := done, fail;
      FinishedByType();
    }

    method Finishable(finish: set<nat>) returns (done: set<nat>)
      requires Valid()
      ensures done <= finish
      ensures forall r | r in Model().ops && r.ticket in done :: E.Ready(Model(), r)
      ensures forall t | t in finish && t !in done :: P.Blocked(Model(), t)
    {
      hide At, Snaps, Ids, Valid, Model, E.Ready, P.Blocked;
      done := finish;
      OpsAgree();
      ghost var s := Model();
      for i := 0 to ops.len
        invariant done <= finish
        invariant forall j | 0 <= j < i :: s.ops[j].ticket in done ==> E.Ready(s, s.ops[j])
        invariant forall t | t in finish && t !in done :: P.Blocked(s, t)
      {
        var r := ops.ptr[i];
        assert r == ops.Contents()[i];
        ReadyMeans(s, i);
        if !r.body.SendBody? && r.ticket !in ucx.given {
          done := done - {r.ticket};
        }
      }
    }

    lemma FinishedByType()
      requires Valid() && D.Typed(Model())
      requires forall r | r in Model().ops && r.ticket in ucx.done :: E.Ready(Model(), r)
      ensures FinishedAreGiven()
    {
      OpsAgree();
      forall r | r in inFlight && r.ticket in ucx.done && r.kind == E.RecvKind
        ensures r.ticket in ucx.given
      {
        var i :| 0 <= i < |inFlight| && inFlight[i] == r;
        assert Model().ops[i] in Model().ops;
      }
    }

    method Stop()
      requires Valid()
      modifies this`run
      ensures Valid() && Model() == old(Model()).(run := false)
    {
      hide At, Snaps, Ids;
      run := false;
    }

    /** The condition of the worker loop. */
    method Leaves() returns (leave: bool)
      requires Valid() && Chained() && !exited
      modifies this`exited
      ensures Valid() && Chained() && exited == leave
      ensures leave <==> !old(Model()).run && E.QueuesEmpty(old(Model()))
      ensures Model() == if leave then old(Model()).(exited := true) else old(Model())
    {
      hide At, Ids;
      var empty := AreQueuesEmpty();
      leave := !run && empty;
      exited := leave;
    }

    // ----- starting -----

    /** The loop of clh_list_init_ on one pool. */
    method FillPool(kind: E.Kind, n: nat)
      requires Valid() && Chained()
      modifies this`sendFree, this`recvFree, this`probeFree, this`nodeCount, this`home, queues, queues.lists
      ensures Valid() && Chained() && Model() == E.Preallocate(old(Model()), kind, n)
      ensures queues.Grown({}) && PoolsGrown()
    {
      hide At, Snaps, Ids, Valid, Chained, Model, E.FreeOf, E.WithFree, E.Preallocate;
      PreallocateOne(old(Model()), kind, 0);
      var i: nat := 0;
      while i < n
        invariant i <= n && Valid() && Chained() && Model() == E.Preallocate(old(Model()), kind, i)
        invariant queues.Grown({}) && PoolsGrown()
      {
        PreallocateOne(old(Model()), kind, i);
        var r := AllocateNode(kind);
        PushFree(r);
        i := i + 1;
      }
    }

    /** Only new requests have joined the pools. */
    twostate predicate PoolsGrown()
      reads this`sendFree, this`recvFree, this`probeFree
    {
      forall k, r | r in Pool(k) :: r in old(Pool(k)) || fresh(r)
    }

    /** The request queues of start_ (clh.c:445-447). */
    method FillPools(capacity: nat)
      requires Valid() && Chained() && Model() == E.Empty()
      modifies this`sendFree, this`recvFree, this`probeFree, this`nodeCount, this`home
      modifies queues, queues.lists
      ensures Valid() && Chained() && Model() == E.Start(capacity)
      ensures queues.Grown({}) && PoolsGrown()
    {
      hide At, Snaps, Ids, Valid, Chained, Model, E.Preallocate, E.Empty;
      FillPool(E.SendKind, capacity);
      FillPool(E.RecvKind, capacity);
      FillPool(E.ProbeKind, capacity);
    }

    // ----- operations -----

    /** The in-progress branch of validate_status_ptr_. */
    method AppendOp(r: Request)
      requires Valid() && Apart(r) && r.Linked() && r.place == InFlight
      modifies this`inFlight, ops, ops.ptr
      ensures Valid() && (ops.ptr == old(ops.ptr) || fresh(ops.ptr))
      ensures Model() == old(Model()).(ops := old(Model()).ops + [r.Snap()])
      ensures inFlight == old(inFlight) + [r]
    {
      hide At, Snaps, Ids, M.Channels.Valid;
      AtAppend(inFlight, r, InFlight);
      ops.Append(r);
      inFlight := inFlight + [r];
    }

    /** CLH_COMPLETE_REQUEST: the request is the user's again. */
    method CompleteRequest(r: Request, ghost m: Option<Message>)
      requires Valid() && Apart(r) && r.Linked()
      modifies r`completed, r`place, this`user, this`log
      ensures Valid() && user == old(user) + [r] && r.Snap() == old(r.Snap()).(completed := true)
      ensures Model() == old(Model()).(user := old(Model()).user + [r.Snap()],
                                       log := old(Model()).log + [E.Completion(r.Snap(), m)])
    {
      hide At, Snaps, Ids, M.Channels.Valid;
      r.completed, r.place := true, InHand;
      AtAppend(user, r, InHand);
      user, log := user + [r], log + [E.Completion(r.Snap(), m)];
    }

    /** validate_status_ptr_ with its three outcomes. The transport never
        completes at once (UCP_OP_ATTR_FLAG_NO_IMM_CMPL); if it did, the request
        would be completed without its fields having been decoded. */
    method ValidateStatusPtr(r: Request, s: StatusPtr) returns (ok: bool)
      requires Valid() && Apart(r) && r.Linked()
      modifies this`inFlight, this`user, this`log, r`completed, r`place, ops, ops.ptr
      ensures ok <==> s != Failed
      ensures ok ==> Valid() && (ops.ptr == old(ops.ptr) || fresh(ops.ptr))
      ensures s == InProgress ==>
                && Model() == old(Model()).(ops := old(Model()).ops + [old(r.Snap())])
                && inFlight == old(inFlight) + [r] && user == old(user)
      ensures s == Immediate ==>
                Model() == old(Model()).(user := old(Model()).user + [old(r.Snap()).(completed := true)],
                  log := old(Model()).log + [E.Completion(old(r.Snap()).(completed := true), None)])
    {
      hide At, Snaps, Ids, Valid, Model;
      match s {
        case Failed => return false;
        case Immediate => CompleteRequest(r, None);
        case InProgress =>
          Moved(r, InFlight);
          AppendOp(r);
      }
      ok := true;
    }

    // ----- process_send_queue_ -----

    /** clh_list_pop_node: the tail of the send queue. */
    method PopSend() returns (r: Request)
      requires Valid() && Chained() && sendQ != []
      modifies this`sendQ, queues.lists, queues.nodes
      ensures Valid() && Chained() && queues.nodes == old(queues.nodes)
      ensures Apart(r) && r.Linked() && r == Last(old(sendQ)) && sendQ == DropLast(old(sendQ))
      ensures old(Model()).sendQ != [] && r.Snap() == Last(old(Model()).sendQ)
      ensures Model() == old(Model()).(sendQ := DropLast(old(Model()).sendQ))
    {
      hide At, Snaps, Ids, Valid, Model, Apart, Q.RequestLists.Holds;
      r := queues.PopRequest(E.SendKind, Chains());
      NotePopped();
    }

    ghost method NotePopped()
      requires Valid() && sendQ != []
      modifies this`sendQ
      ensures Valid() && Apart(Last(old(sendQ))) && Last(old(sendQ)).Linked() && sendQ == DropLast(old(sendQ))
      ensures old(Model()).sendQ != [] && Last(old(sendQ)).Snap() == Last(old(Model()).sendQ)
      ensures Model() == old(Model()).(sendQ := DropLast(old(Model()).sendQ))
    {
      hide At, Snaps, Ids, M.Channels.Valid;
      AtLast(sendQ, SendQueue);
      PlaceTells(Last(sendQ));
      sendQ := DropLast(sendQ);
    }

    /** Registration of a buffer, in either pass; what the transport answers to
        the mapping is unknown. */
    method RegisterBuffer(r: Request) returns (status: Status)
      requires Valid() && Chained() && cache.Valid()
      modifies ucx`refused, cache, cache.allocator, cache.allocator.lastBlock, cache.Cells()
      ensures Valid() && Chained() && Model() == old(Model())
      ensures ucx.refused == old(ucx.refused) + if status == Aborted then 1 else 0
      ensures cache.Valid() && Grown()
      ensures status == Success || status == Aborted
      ensures status == Success ==> Registered(r)
    {
      hide At, Snaps, Ids, Valid, Chained, Model, C.BufferCache.Valid;
      var memh: Option<nat> := *;
      var mem := r.mem;
      var e := cache.RegisterOrGet(mem, memh);
      if e == C.Aborted {
        ucx.refused := ucx.refused + 1;
        return Aborted;
      }
      var bce := if e == C.NullBuffer then 0 else e.mem;
      if bce != r.mem {
        return RegistrationError;
      }
      status := Success;
    }

    /** The request's buffer is in the cache, or is null. */
    ghost predicate Registered(r: Request)
      reads r`mem, cache
    {
      r.mem == 0 || r.mem in cache.Map()
    }

    /** The cache writes to its own old cells and to new ones, and forgets nothing. */
    twostate predicate Grown()
      reads this, cache, cache.allocator
    {
      && (cache.allocator.lastBlock == old(cache.allocator.lastBlock) || fresh(cache.allocator.lastBlock))
      && (forall n | n in cache.Cells() :: n in old(cache.Cells()) || fresh(n))
      && (forall k | k in old(cache.Map()) :: k in cache.Map())
    }

    /** ucx_send */
    method StartSend(r: Request) returns (s: StatusPtr)
      requires Valid() && r.body.SendBody?
      modifies ucx`failures, ucx`sent
      ensures s != Immediate && ucx.failures == old(ucx.failures) + if s == Failed then 1 else 0
      ensures s == InProgress ==> ucx.sent == old(ucx.sent) + P.Sending(r.Snap())
      ensures Valid() && Model() == old(Model())
    {
      hide At, Snaps, Ids, M.Channels.Valid;
      s := ucx.SendNbx(r.body.dest, r.body.sendTag);
    }

    method CountSend()
      requires Valid()
      modifies this`sendCount
      ensures Valid() && Model() == old(Model()).(sendCount := old(Model()).sendCount + 1)
    {
      hide At, Snaps, Ids, M.Channels.Valid;
      sendCount := sendCount + 1;
    }

    /** ucx_send, validate_status_ptr_ and the counter. */
    method SendOut(r: Request) returns (status: Status)
      requires Valid() && Chained() && Apart(r) && r.Linked() && r.body.SendBody?
      modifies this`inFlight, this`user, this`log, this`sendCount, r`completed, r`place, ops, ops.ptr
      modifies ucx`failures, ucx`sent
      ensures status == Success || status == RequestFailure
      ensures ucx.failures == old(ucx.failures) + if status == RequestFailure then 1 else 0
      ensures status == Success ==>
                && Valid() && Chained() && (ops.ptr == old(ops.ptr) || fresh(ops.ptr))
                && inFlight == old(inFlight) + [r] && user == old(user)
                && ucx.sent == old(ucx.sent) + P.Sending(old(r.Snap()))
                && Model() == Launched(old(Model()), old(r.Snap()))
    {
      hide At, Snaps, Ids, Valid, Chained, Model, Apart;
      var s := StartSend(r);
      var ok := ValidateStatusPtr(r, s);
      if !ok {
        return RequestFailure;
      }
      CountSend();
      status := Success;
    }

    /** Registration, transport call and counter for a request in no queue. */
    method Dispatch(r: Request) returns (status: Status)
      requires Valid() && Chained() && cache.Valid() && Apart(r) && r.Linked() && r.body.SendBody?
      modifies this`inFlight, this`user, this`log, this`sendCount, r`completed, r`place, ops, ops.ptr
      modifies ucx`failures, ucx`refused, ucx`sent
      modifies cache, cache.allocator, cache.allocator.lastBlock, cache.Cells()
      ensures status == Success || status == RequestFailure || status == Aborted
      ensures ucx.failures == old(ucx.failures) + if status == RequestFailure then 1 else 0
      ensures ucx.refused == old(ucx.refused) + if status == Aborted then 1 else 0
      ensures status == Success ==> cache.Valid() && Grown() && Registered(r)
      ensures status == Success ==>
                && Valid() && Chained() && (ops.ptr == old(ops.ptr) || fresh(ops.ptr))
                && inFlight == old(inFlight) + [r] && user == old(user)
                && ucx.sent == old(ucx.sent) + P.Sending(old(r.Snap()))
                && Model() == Launched(old(Model()), old(r.Snap()))
    {
      hide At, Snaps, Ids, Valid, Chained, Model, Apart, C.BufferCache.Valid, C.BufferCache.Map, P.Sending, Launched;
      status := RegisterBuffer(r);
      if status != Success {
        return;
      }
      status := SendOut(r);
    }

    /** PopSend leaves the cache alone. */
    method PopTail() returns (r: Request)
      requires Valid() && Chained() && cache.Valid() && sendQ != []
      modifies this`sendQ, queues.lists, queues.nodes
      ensures Valid() && Chained() && cache.Valid() && queues.nodes == old(queues.nodes)
      ensures cache.Map() == old(cache.Map()) && cache.Cells() == old(cache.Cells())
      ensures cache.allocator.lastBlock == old(cache.allocator.lastBlock) && ucx.failures == old(ucx.failures)
      ensures ucx.sent == old(ucx.sent) && ucx.refused == old(ucx.refused)
      ensures Apart(r) && r.Linked() && r == Last(old(sendQ)) && sendQ == DropLast(old(sendQ))
      ensures inFlight == old(inFlight) && user == old(user) && ops.ptr == old(ops.ptr)
      ensures old(Model()).sendQ != [] && r.Snap() == Last(old(Model()).sendQ)
      ensures Model() == old(Model()).(sendQ := DropLast(old(Model()).sendQ))
    {
      hide At, Snaps, Ids, Valid, Chained, Model, Apart, C.BufferCache.Valid, C.BufferCache.Map;
      r := PopSend();
    }

    /** One turn of the loop. */
    method SubmitOne(ghost tail: Request) returns (status: Status)
      requires Valid() && Chained() && cache.Valid() && sendQ != [] && tail == Last(sendQ)
      requires Model().sendQ != [] && Last(Model().sendQ).body.SendBody?
      modifies this`sendQ, this`inFlight, this`user, this`log, this`sendCount
      modifies tail`completed, tail`place, ops, ops.ptr, ucx`failures, ucx`refused, ucx`sent
      modifies queues.lists, queues.nodes
      modifies cache, cache.allocator, cache.allocator.lastBlock, cache.Cells()
      ensures queues.nodes == old(queues.nodes)
      ensures status == Success || status == RequestFailure || status == Aborted
      ensures ucx.failures == old(ucx.failures) + if status == RequestFailure then 1 else 0
      ensures ucx.refused == old(ucx.refused) + if status == Aborted then 1 else 0
      ensures status == Success ==> cache.Valid() && Grown() && Registered(tail)
      ensures status == Success ==>
                && Valid() && Chained()
                && (ops.ptr == old(ops.ptr) || fresh(ops.ptr))
                && sendQ == DropLast(old(sendQ)) && old(Model()).sendQ != [] && user == old(user)
                && inFlight == old(inFlight) + [tail]
                && ucx.sent == old(ucx.sent) + P.Sending(Last(old(Model()).sendQ))
                && Model() == E.DoSubmitSend(old(Model()))
    {
      hide At, Snaps, Ids, Valid, Chained, Model, Apart, C.BufferCache.Valid, C.BufferCache.Map, E.DoSubmitSend,
        C.BufferCache.Cells, P.Sending, Launched, Registered, Last, DropLast, Request.Linked, Chains, Index;
      var r := PopTail();
      SubmitInParts(old(Model()), Model());
      status := Dispatch(r);
    }

    /** process_send_queue_: it ends with the queue empty or the window full,
        and every submitted buffer registered, unless a transport call fails or
        the assertion on a failed mapping stops the program. It never returns a
        registration error: what the cache returns is for the address asked. The
        transport is given the destination and the tag of just the sends that
        are then in progress. */
    method ProcessSendQueue() returns (status: Status)
      requires Valid() && Chained() && cache.Valid() && P.OnlySends(Model().sendQ)
      modifies this`sendQ, this`inFlight, this`user, this`log, this`sendCount
      modifies sendQ`completed, sendQ`place, ops, ops.ptr, ucx`failures, ucx`refused, ucx`sent
      modifies queues.lists, queues.nodes
      modifies cache, cache.allocator, cache.allocator.lastBlock, cache.Cells()
      ensures queues.nodes == old(queues.nodes)
      ensures status == Success || status == RequestFailure || status == Aborted
      ensures status == RequestFailure <==> ucx.failures != old(ucx.failures)
      ensures status == Aborted <==> ucx.refused != old(ucx.refused)
      ensures status == Success ==> cache.Valid() && Grown()
      ensures status == Success ==> forall r | r in inFlight && r !in old(inFlight) :: Registered(r)
      ensures status == Success ==> Valid() && Model() == P.SendPass(old(Model()))
      ensures status == Success ==>
                && |old(Model()).ops| <= |Model().ops|
                && ucx.sent == old(ucx.sent) + P.Sendings(Model().ops[|old(Model()).ops|..])
      ensures status == Success ==>
                && Chained() && user == old(user)
                && (ops.ptr == old(ops.ptr) || fresh(ops.ptr))
      ensures status == Success ==> sendQ == [] || sendCount >= E.SEND_WINDOW
      ensures status == Success ==>
                && sendQ <= old(sendQ) && old(inFlight) <= inFlight
                && (forall r | r in inFlight :: r in old(inFlight) || r in old(sendQ))
                && (forall r | r in old(sendQ) :: r in sendQ || r in inFlight)
    {
      hide At, Snaps, Ids, Valid, Chained, Model, C.BufferCache.Valid, C.BufferCache.Map, Submitting, Submitted;
      StartSubmit();
      while sendCount < E.SEND_WINDOW && queues.send.tail != null
        invariant Submitting(old(Model()), old(ucx.sent)) && queues.nodes == old(queues.nodes)
        invariant Grown() && (ops.ptr == old(ops.ptr) || fresh(ops.ptr))
        invariant queues.send.tail == null <==> sendQ == []
        invariant Submitted(old(inFlight), old(sendQ), old(user))
        invariant ucx.failures == old(ucx.failures) && ucx.refused == old(ucx.refused)
        decreases |sendQ|
      {
        StillQueued(old(inFlight), old(sendQ), old(user));
        status := SubmitNext(old(Model()), old(ucx.sent), old(inFlight), old(sendQ), old(user));
        if status != Success {
          return;
        }
      }
      EndSubmit(old(Model()), old(ucx.sent), old(inFlight), old(sendQ), old(user));
      status := Success;
    }

    /** The pass over the send queue, begun in state s0, is under way. */
    ghost predicate Submitting(s0: E.State, sent0: seq<P.Outgoing>)
      reads this, sendFree, recvFree, probeFree, sendQ, recvQ, batch, inFlight, user, ops, ops.ptr
      reads queues, queues.lists, queues.nodes, recvList`content, ucx`unexpected, ucx`posted, ucx`given, ucx`sent
      reads cache, cache.nodes, cache.allocator, cache.allocator.blocks, cache.allocator.used
    {
      && Valid() && Chained() && cache.Valid() && P.OnlySends(Model().sendQ)
      && P.SendPass(Model()) == P.SendPass(s0)
      && ucx.sent + P.Going(Model()) == sent0 + P.Going(s0)
    }

    /** Requests have moved from q to the operations, which were ops0, and each
        of these has a registered buffer. */
    ghost predicate Submitted(ops0: seq<Request>, q: seq<Request>, u: seq<Request>)
      reads this`sendQ, this`inFlight, this`user, inFlight`mem, cache
    {
      && user == u
      && (forall r | r in inFlight && r !in ops0 :: Registered(r))
      && sendQ <= q && ops0 <= inFlight
      && (forall r | r in inFlight :: r in ops0 || r in q)
      && (forall r | r in q :: r in sendQ || r in inFlight)
    }

    lemma StillQueued(ops0: seq<Request>, q: seq<Request>, u: seq<Request>)
      requires Submitted(ops0, q, u)
      ensures forall i | 0 <= i < |sendQ| :: sendQ[i] in q
    {
    }

    lemma StartSubmit()
      requires Valid() && Chained() && cache.Valid() && P.OnlySends(Model().sendQ)
      ensures Submitting(Model(), ucx.sent) && Submitted(inFlight, sendQ, user)
      ensures queues.send.tail == null <==> sendQ == []
    {
      hide At, Snaps, Ids, Valid, Chained, Model, C.BufferCache.Valid, P.SendPass;
      SendAgrees();
    }

    lemma EndSubmit(s0: E.State, sent0: seq<P.Outgoing>, ops0: seq<Request>, q: seq<Request>, u: seq<Request>)
      requires Submitting(s0, sent0) && Submitted(ops0, q, u) && (sendQ == [] || sendCount >= E.SEND_WINDOW)
      ensures Valid() && Chained() && cache.Valid() && Model() == P.SendPass(s0) && user == u
      ensures |s0.ops| <= |Model().ops| && ucx.sent == sent0 + P.Sendings(Model().ops[|s0.ops|..])
      ensures forall r | r in inFlight && r !in ops0 :: Registered(r)
      ensures sendQ <= q && ops0 <= inFlight
      ensures forall r | r in inFlight :: r in ops0 || r in q
      ensures forall r | r in q :: r in sendQ || r in inFlight
    {
      hide At, Snaps, Ids, Valid, Chained, Model, C.BufferCache.Valid, P.Sendings;
      SendAgrees();
      P.GoingIs(s0);
    }

    /** One turn of the loop and its effect on the pass. */
    method SubmitNext(ghost s0: E.State, ghost sent0: seq<P.Outgoing>, ghost ops0: seq<Request>,
                      ghost q: seq<Request>, ghost u: seq<Request>)
      returns (status: Status)
      requires Submitting(s0, sent0) && Submitted(ops0, q, u) && sendQ != [] && sendCount < E.SEND_WINDOW
      modifies this`sendQ, this`inFlight, this`user, this`log, this`sendCount
      modifies sendQ`completed, sendQ`place, ops, ops.ptr, ucx`failures, ucx`refused, ucx`sent
      modifies queues.lists, queues.nodes
      modifies cache, cache.allocator, cache.allocator.lastBlock, cache.Cells()
      ensures queues.nodes == old(queues.nodes)
      ensures status == Success || status == RequestFailure || status == Aborted
      ensures ucx.failures == old(ucx.failures) + if status == RequestFailure then 1 else 0
      ensures ucx.refused == old(ucx.refused) + if status == Aborted then 1 else 0
      ensures status == Success ==>
                && Submitting(s0, sent0) && Submitted(ops0, q, u) && Grown()
                && (ops.ptr == old(ops.ptr) || fresh(ops.ptr))
                && sendQ == DropLast(old(sendQ)) && (queues.send.tail == null <==> sendQ == [])
    {
      hide At, Snaps, Ids, Valid, Chained, Model, C.BufferCache.Valid, C.BufferCache.Map, P.Sending,
        P.Going, P.SendPass, P.OnlySends, E.DoSubmitSend;
      SendAgrees();
      P.OneGoing(Model());
      assert Last(sendQ) in sendQ;
      status := SubmitOne(Last(sendQ));
      if status == Success {
        SendAgrees();
        forall r | r in inFlight && r !in ops0
          ensures Registered(r)
        {
          assert r in old(inFlight) || r == Last(inFlight);
        }
      }
    }

    lemma SendAgrees()
      requires Chained()
      ensures Model().sendCount == sendCount && (Model().sendQ == [] <==> sendQ == [])
      ensures queues.send.tail == null <==> sendQ == []
    {
      hide Q.RequestLists.Holds;
      queues.EndsTell(Chains());
      queues.ThreeKinds();
    }

    // ----- process_recv_queue_ -----

    /** clh_list_get_all_nodes: the first node of the chain, which keeps its
        links. */
    method DetachRecv() returns (begin: L.Node?<()>)
      requires Valid() && Chained() && batch == []
      modifies this`recvQ, this`batch, recvQ`place, queues`detached, queues.lists, queues.nodes
      ensures Valid() && Chained() && batch == old(recvQ) && recvQ == []
      ensures begin == L.At(queues.detached, 0)
      ensures Model() == E.DoDrain(old(Model()))
    {
      hide At, Snaps, Ids, Valid, Model, Q.RequestLists.Holds;
      begin := queues.DetachRequests(Chains());
      NoteDetached();
    }

    ghost method NoteDetached()
      requires Valid() && batch == []
      modifies this`recvQ, this`batch, recvQ`place
      ensures Valid() && batch == old(recvQ) && recvQ == []
      ensures Model() == E.DoDrain(old(Model()))
    {
      hide Snaps, Ids, At;
      PlacesDiffer(recvQ, RecvQueue, sendFree, Free(E.SendKind));
      PlacesDiffer(recvQ, RecvQueue, recvFree, Free(E.RecvKind));
      PlacesDiffer(recvQ, RecvQueue, probeFree, Free(E.ProbeKind));
      PlacesDiffer(recvQ, RecvQueue, sendQ, SendQueue);
      PlacesDiffer(recvQ, RecvQueue, inFlight, InFlight);
      PlacesDiffer(recvQ, RecvQueue, user, InHand);
      MarkBatch(recvQ);
      batch, recvQ := recvQ, [];
      AtNothing();
    }

    /** The walk moves on from the first node of the chain. */
    ghost method StepChain()
      requires Valid() && Chained() && batch != [] && queues.detached != []
      modifies this`batch, queues`detached
      ensures Valid() && Chained() && Apart(old(batch[0])) && old(batch[0]).Linked() && batch == old(batch)[1..]
      ensures old(queues.detached[0]).next == L.At(queues.detached, 0)
      ensures old(Model()).batch != [] && old(batch[0]).Snap() == old(Model()).batch[0]
      ensures Model() == old(Model()).(batch := old(Model()).batch[1..])
    {
      hide At, Snaps, Ids, Valid, Model, Apart, Q.RequestLists.Holds;
      queues.StepOffRequest(Chains());
      NoteStepped();
    }

    ghost method NoteStepped()
      requires Valid() && batch != []
      modifies this`batch
      ensures Valid() && Apart(old(batch[0])) && old(batch[0]).Linked() && batch == old(batch)[1..]
      ensures old(Model()).batch != [] && old(batch[0]).Snap() == old(Model()).batch[0]
      ensures Model() == old(Model()).(batch := old(Model()).batch[1..])
    {
      hide At, Snaps, Ids, M.Channels.Valid;
      AtHead(batch, Batch);
      PlaceTells(batch[0]);
      batch := batch[1..];
    }

    /** The chain's first node lies in front of the first request of the batch. */
    lemma FirstDetached()
      requires Chained()
      ensures queues.detached == [] <==> batch == []
      ensures batch != [] ==> queues.detached[0].owner == batch[0]
    {
      hide Q.RequestLists.Valid;
    }

    /** What was found becomes the receive's own. */
    method Adopt(r: Request, node: L.Node<M.Slot>, ghost i: nat, ghost c: nat)
      requires Valid() && Chained() && recvList.Valid() && Apart(r) && r.body.RecvBody? && c < MAX_CHANNELS
      requires D.Filed(Index()) && i < |Index().lists[c]|
      requires |recvList.all| == MAX_CHANNELS && node == L.At(recvList.all[c].items, i)
      requires node.data.Content() == Index().lists[c][i]
      modifies r`channel, r`source, r`tag, r`body, recvList`content, recvList.all, recvList.repr
      ensures Valid() && Chained() && recvList.Valid() && r.ticket == old(r.ticket)
      ensures var x, m := old(Index()), old(Index().lists[c][i]);
              && r.Snap() == old(r.Snap()).(fields := DecodeTag(m.tag), body := old(r.body).(msg := Some(m)))
              && Model() == old(Model()).(index := x.(lists := x.lists[c := Without(x.lists[c], i)]))
    {
      hide At, Snaps, Ids, Valid, Chained, Model, Index, DecodeTag, D.Filed, M.Channels.Valid, ListOf, Chan;
      var m := node.data.Content();
      ListsAgree();
      StoredOnChannel(Index(), c, i);
      ListOfMeans(m.tag);
      FillRecv(r, m);
      RemoveStored(ListOf(r.channel), node, i);
    }

    /** Look the receive up in the list of its channel, and take what is found.
        The list the node is removed from is named by the message's channel,
        which is the same list. */
    method PickStored(r: Request, ghost c: nat)
      requires Valid() && Chained() && recvList.Valid() && Apart(r) && r.body.RecvBody? && r.channel < 0x100
      requires D.Filed(Index())
      requires c == ListOf(r.channel) && c < MAX_CHANNELS
      modifies r`channel, r`source, r`tag, r`body, recvList`content, recvList.all, recvList.repr
      ensures Valid() && Chained() && recvList.Valid() && r.body.RecvBody? && r.body.want == old(r.body.want)
      ensures r.ticket == old(r.ticket)
      ensures Shaped(old(Index()))
      ensures r.Snap() == E.Matched(old(r.Snap()), old(Index()))
      ensures var x := old(Index());
              Model() == old(Model()).(index :=
                if Picked(old(r.Snap()), x, c).Some? then Take(x, c, old(r.body.want)) else x)
    {
      hide At, Snaps, Ids, Valid, Chained, Model, Index, FirstMatch, TagMatches, DecodeTag, D.Filed, M.Channels.Valid,
        E.Matched, ListOf, Chan;
      ListsAgree();
      MatchedIs(r.Snap(), Index(), c);
      if r.body.msg == None {
        var node, i := FindStored(ListOf(r.channel), r.body.want);
        if node != null {
          Adopt(r, node, i, c);
        }
      }
    }

    /** The transport call of the receive. */
    method StartRecv(r: Request) returns (s: StatusPtr)
      requires Valid() && Chained() && Apart(r) && r.body.RecvBody?
      modifies ucx`unexpected, ucx`posted, ucx`given, ucx`failures
      ensures s != Immediate && ucx.failures == old(ucx.failures) + if s == Failed then 1 else 0
      ensures Valid() && Chained()
      ensures s == InProgress ==>
                Model() == old(Model()).(index :=
                  match r.body.msg
                  case Some(m) => Give(old(Index()), r.ticket, m)
                  case None => Hand(old(Index()), r.ticket, r.body.want))
    {
      hide At, Snaps, Ids, Chained, FirstMatch;
      match r.body.msg {
        case Some(m) => s := ucx.MsgRecvNbx(r.ticket, m);
        case None => s := ucx.RecvNbx(r.ticket, r.body.want);
      }
    }

    lemma IndexAgrees()
      ensures Model().index == Index()
    {
    }

    /** ucx_recv and validate_status_ptr_. */
    method Call(r: Request) returns (status: Status)
      requires Valid() && Chained() && recvList.Valid() && Apart(r) && r.Linked() && r.body.RecvBody?
      modifies this`inFlight, this`user, this`log, r`completed, r`place, ops, ops.ptr
      modifies ucx`unexpected, ucx`posted, ucx`given, ucx`failures
      ensures status == Success || status == RequestFailure
      ensures ucx.failures == old(ucx.failures) + if status == Success then 0 else 1
      ensures status == Success ==>
                && Valid() && Chained() && recvList.Valid() && (ops.ptr == old(ops.ptr) || fresh(ops.ptr))
                && inFlight == old(inFlight) + [r] && user == old(user)
                && Model() == old(Model()).(ops := old(Model()).ops + [old(r.Snap())], index :=
                     match old(r.body).msg
                     case Some(m) => Give(old(Index()), old(r.ticket), m)
                     case None => Hand(old(Index()), old(r.ticket), old(r.body).want))
    {
      hide At, Snaps, Ids, Valid, Chained, Model, Index, Hand, Give, M.Channels.Valid, Apart;
      var s := StartRecv(r);
      var ok := ValidateStatusPtr(r, s);
      if !ok {
        return RequestFailure;
      }
      status := Success;
    }

    /** Search, transport call and status of a receive in no queue. */
    method Issue(r: Request, ghost c: nat) returns (status: Status)
      requires Valid() && Chained() && recvList.Valid() && Apart(r) && r.Linked()
      requires r.body.RecvBody? && r.channel < 0x100
      requires D.Filed(Index()) && c == ListOf(r.channel) && c < MAX_CHANNELS
      modifies this`inFlight, this`user, this`log
      modifies r`channel, r`source, r`tag, r`body, r`completed, r`place
      modifies recvList`content, recvList.all, recvList.repr, ops, ops.ptr
      modifies ucx`unexpected, ucx`posted, ucx`given, ucx`failures
      ensures status == Success || status == RequestFailure
      ensures ucx.failures == old(ucx.failures) + if status == Success then 0 else 1
      ensures Shaped(old(Model()).index)
      ensures status == Success ==>
                && Valid() && Chained() && recvList.Valid() && (ops.ptr == old(ops.ptr) || fresh(ops.ptr))
                && inFlight == old(inFlight) + [r] && user == old(user)
                && Model() == Issued(old(Model()), old(r.Snap()), c)
    {
      hide At, Snaps, Ids, Valid, Chained, Model, Index, DecodeTag, FirstMatch, D.Filed, E.Matched, Take, HasMatch,
        Hand, Give, Picked, M.Channels.Valid, ListOf, Apart;
      IndexAgrees();
      ListsAgree();
      PickStored(r, c);
      IndexAgrees();
      status := Call(r);
    }

    /** One turn of the loop after the registration. */
    method HandOver(r: Request) returns (status: Status)
      requires Valid() && Chained() && recvList.Valid() && batch != [] && r == batch[0]
      requires r.body.RecvBody? && r.channel < 0x100 && D.Filed(Index())
      modifies this`batch, this`inFlight, this`user, this`log, queues`detached
      modifies r`channel, r`source, r`tag, r`body, r`completed, r`place
      modifies recvList`content, recvList.all, recvList.repr, ops, ops.ptr
      modifies ucx`unexpected, ucx`posted, ucx`given, ucx`failures
      ensures status == Success || status == RequestFailure
      ensures ucx.failures == old(ucx.failures) + if status == Success then 0 else 1
      ensures status == Success ==>
                && Valid() && Chained() && recvList.Valid() && (ops.ptr == old(ops.ptr) || fresh(ops.ptr))
                && batch == old(batch)[1..] && inFlight == old(inFlight) + [r] && user == old(user)
                && old(queues.detached) != []
                && old(queues.detached[0]).next == L.At(queues.detached, 0)
                && old(Model()).batch != [] && old(Model()).batch[0] == old(r.Snap())
                && Shaped(old(Model()).index)
                && Model() == E.DoPostNext(old(Model()))
    {
      hide At, Snaps, Ids, Valid, Chained, Model, Index, D.Filed, M.Channels.Valid, E.DoPostNext, ListOf, Issued, Apart;
      ghost var c := ListOf(r.channel);
      IndexAgrees();
      ListsAgree();
      BatchAgrees();
      FirstDetached();
      StepChain();
      IndexAgrees();
      TurnInParts(old(Model()), c);
      status := Issue(r, c);
    }

    /** One turn of the loop. */
    method PostOne(r: Request) returns (status: Status)
      requires Valid() && Chained() && cache.Valid() && recvList.Valid() && batch != [] && r == batch[0]
      requires r.body.RecvBody? && r.channel < 0x100 && D.Filed(Index())
      modifies this`batch, this`inFlight, this`user, this`log, queues`detached
      modifies r`channel, r`source, r`tag, r`body, r`completed, r`place
      modifies recvList`content, recvList.all, recvList.repr, ops, ops.ptr
      modifies ucx`unexpected, ucx`posted, ucx`given, ucx`failures, ucx`refused
      modifies cache, cache.allocator, cache.allocator.lastBlock, cache.Cells()
      ensures status == Success || status == RequestFailure || status == Aborted
      ensures ucx.failures == old(ucx.failures) + if status == RequestFailure then 1 else 0
      ensures ucx.refused == old(ucx.refused) + if status == Aborted then 1 else 0
      ensures status == Success ==> cache.Valid() && Grown() && Registered(r)
      ensures status == Success ==>
                && Valid() && Chained() && recvList.Valid() && (ops.ptr == old(ops.ptr) || fresh(ops.ptr))
                && batch == old(batch)[1..] && inFlight == old(inFlight) + [r] && user == old(user)
                && old(queues.detached) != []
                && old(queues.detached[0]).next == L.At(queues.detached, 0)
                && old(Model()).batch != [] && old(Model()).batch[0] == old(r.Snap())
                && Shaped(old(Model()).index)
                && Model() == E.DoPostNext(old(Model()))
    {
      hide At, Snaps, Ids, Valid, Chained, Model, C.BufferCache.Valid, C.BufferCache.Map, M.Channels.Valid, D.Filed,
        E.DoPostNext;
      status := RegisterBuffer(r);
      if status != Success {
        return;
      }
      status := HandOver(r);
    }

    lemma BatchAgrees()
      ensures |Model().batch| == |batch| && (batch != [] ==> Model().batch[0] == batch[0].Snap())
      ensures Model().exited == exited
    {
    }

    /** process_recv_queue_: every queued receive is handed over, oldest first,
        on a registered buffer, unless a transport call fails or a failed
        mapping stops the program. It never returns a registration error. */
    method ProcessRecvQueue() returns (status: Status)
      requires Valid() && Chained() && cache.Valid() && recvList.Valid() && batch == [] && !exited
      requires D.Typed(Model()) && P.InBounds(Model()) && !Model().exited && Model().batch == []
      modifies this`recvQ, this`batch, this`inFlight, this`user, this`log
      modifies recvQ`channel, recvQ`source, recvQ`tag, recvQ`body, recvQ`completed, recvQ`place
      modifies queues`detached, queues.lists, queues.nodes
      modifies recvList`content, recvList.all, recvList.repr, ops, ops.ptr
      modifies ucx`unexpected, ucx`posted, ucx`given, ucx`failures, ucx`refused
      modifies cache, cache.allocator, cache.allocator.lastBlock, cache.Cells()
      ensures status == Success || status == RequestFailure || status == Aborted
      ensures status == RequestFailure <==> ucx.failures != old(ucx.failures)
      ensures status == Aborted <==> ucx.refused != old(ucx.refused)
      ensures status == Success ==> cache.Valid() && Grown() && forall r | r in old(recvQ) :: Registered(r)
      ensures status == Success ==>
                && Valid() && Chained() && recvList.Valid() && batch == [] && recvQ == []
                && Model() == P.RecvPass(old(Model()))
      ensures status == Success ==>
                && user == old(user)
                && (ops.ptr == old(ops.ptr) || fresh(ops.ptr))
                && inFlight == old(inFlight) + old(recvQ)
    {
      hide At, Snaps, Ids, Valid, Chained, Model, D.Typed, P.InBounds, P.PostAll, E.DoPostNext, Walking,
        C.BufferCache.Valid, C.BufferCache.Map, M.Channels.Valid;
      ghost var chain := recvQ;
      var begin := StartWalk();
      ghost var s0 := Model();
      status := WalkChain(begin, chain, s0);
      if status == Success {
        EndWalk(chain, s0, old(Model()));
      }
    }

    /** The loop of process_recv_queue_. */
    method WalkChain(begin: L.Node?<()>, ghost chain: seq<Request>, ghost s0: E.State) returns (status: Status)
      requires Walking(chain, 0, s0) && begin == L.At(queues.detached, 0)
      modifies this`batch, this`inFlight, this`user, this`log, queues`detached
      modifies chain`channel, chain`source, chain`tag, chain`body, chain`completed, chain`place
      modifies recvList`content, recvList.all, recvList.repr, ops, ops.ptr
      modifies ucx`unexpected, ucx`posted, ucx`given, ucx`failures, ucx`refused
      modifies cache, cache.allocator, cache.allocator.lastBlock, cache.Cells()
      ensures status == Success || status == RequestFailure || status == Aborted
      ensures status == RequestFailure <==> ucx.failures != old(ucx.failures)
      ensures status == Aborted <==> ucx.refused != old(ucx.refused)
      ensures status == Success ==>
                && Walking(chain, |chain|, s0) && Grown() && (ops.ptr == old(ops.ptr) || fresh(ops.ptr))
                && user == old(user) && inFlight == old(inFlight) + chain
    {
      hide At, Snaps, Ids, Valid, Chained, Model, D.Typed, P.InBounds, P.PostAll, E.DoPostNext, Walking,
        C.BufferCache.Valid, C.BufferCache.Map, M.Channels.Valid;
      var cur := begin;
      ghost var k := 0;
      StandsAt(chain, k, s0);
      while cur != null
        invariant k <= |chain| && Walking(chain, k, s0)
        invariant cur == L.At(queues.detached, 0)
        invariant k == |chain| <==> queues.detached == []
        invariant Grown() && (ops.ptr == old(ops.ptr) || fresh(ops.ptr)) && user == old(user)
        invariant ucx.failures == old(ucx.failures) && ucx.refused == old(ucx.refused)
        invariant inFlight == old(inFlight) + chain[..k]
        decreases |chain| - k
      {
        StandsAt(chain, k, s0);
        assert chain[k] in chain;
        status := Walk(cur.owner as Request, chain, k, s0);
        if status != Success {
          return;
        }
        cur := cur.next;
        OneOn(old(inFlight), chain, k);
        k := k + 1;
        StandsAt(chain, k, s0);
      }
      status := Success;
    }

    /** The walk along the detached chain stands at its k-th node. */
    ghost predicate Walking(chain: seq<Request>, k: nat, s0: E.State)
      reads this, sendFree, recvFree, probeFree, sendQ, recvQ, batch, inFlight, user, ops, ops.ptr, chain
      reads queues, queues.lists, queues.nodes
      reads recvList, recvList.lists, recvList.all, recvList.repr, ucx`unexpected, ucx`posted, ucx`given
      reads cache, cache.nodes, cache.allocator, cache.allocator.blocks, cache.allocator.used
    {
      && Valid() && Chained() && recvList.Valid() && cache.Valid()
      && k <= |chain| && batch == chain[k..] && recvQ == []
      && D.Typed(Model()) && P.InBounds(Model())
      && D.Typed(s0) && P.InBounds(s0) && !s0.exited && !Model().exited
      && P.PostAll(Model()) == P.PostAll(s0)
      && (forall j | 0 <= j < k :: Registered(chain[j]))
    }

    /** The node the walk stands at belongs to the request it is about. */
    lemma StandsAt(chain: seq<Request>, k: nat, s0: E.State)
      requires Walking(chain, k, s0)
      ensures k == |chain| <==> queues.detached == []
      ensures k < |chain| ==> queues.detached[0].owner == chain[k]
    {
      hide Valid, Chained, Model, D.Typed, P.InBounds, P.PostAll, C.BufferCache.Valid, M.Channels.Valid;
      FirstDetached();
    }

    method StartWalk() returns (begin: L.Node?<()>)
      requires Valid() && Chained() && cache.Valid() && recvList.Valid() && batch == [] && D.Typed(Model())
      requires Model().batch == [] && P.InBounds(Model()) && !Model().exited
      modifies this`recvQ, this`batch, recvQ`place, queues`detached, queues.lists, queues.nodes
      ensures Walking(old(recvQ), 0, Model()) && Model() == E.DoDrain(old(Model()))
      ensures begin == L.At(queues.detached, 0)
      ensures forall r | r in old(recvQ) :: r.mem == old(r.mem)
    {
      hide At, Snaps, Ids, Valid, Chained, Model, D.Typed, P.InBounds, P.PostAll, C.BufferCache.Valid,
        M.Channels.Valid;
      begin := DetachRecv();
      P.DrainTyped(old(Model()));
    }

    method Walk(r: Request, ghost chain: seq<Request>, ghost k: nat, ghost s0: E.State) returns (status: Status)
      requires Walking(chain, k, s0) && k < |chain| && r == chain[k]
      modifies this`batch, this`inFlight, this`user, this`log, queues`detached
      modifies r`channel, r`source, r`tag, r`body, r`completed, r`place
      modifies recvList`content, recvList.all, recvList.repr, ops, ops.ptr
      modifies ucx`unexpected, ucx`posted, ucx`given, ucx`failures, ucx`refused
      modifies cache, cache.allocator, cache.allocator.lastBlock, cache.Cells()
      ensures status == Success || status == RequestFailure || status == Aborted
      ensures ucx.failures == old(ucx.failures) + if status == RequestFailure then 1 else 0
      ensures ucx.refused == old(ucx.refused) + if status == Aborted then 1 else 0
      ensures status == Success ==>
                && Walking(chain, k + 1, s0) && Grown() && (ops.ptr == old(ops.ptr) || fresh(ops.ptr))
                && inFlight == old(inFlight) + [r] && user == old(user)
                && old(queues.detached) != [] && old(queues.detached[0]).next == L.At(queues.detached, 0)
    {
      hide At, Snaps, Ids, Valid, Chained, Model, D.Typed, P.InBounds, P.PostAll, E.DoPostNext, D.Filed,
        M.Channels.Valid,
        C.BufferCache.Valid, C.BufferCache.Map;
      BatchAgrees();
      IndexAgrees();
      HeadQueued(Model());
      status := PostOne(r);
      BatchAgrees();
    }

    lemma EndWalk(chain: seq<Request>, s0: E.State, before: E.State)
      requires Walking(chain, |chain|, s0)
      requires D.Typed(before) && P.InBounds(before) && !before.exited && before.batch == [] && s0 == E.DoDrain(before)
      ensures Valid() && Chained() && recvList.Valid() && cache.Valid() && batch == [] && recvQ == []
      ensures Model() == P.RecvPass(before)
      ensures forall r | r in chain :: Registered(r)
    {
      hide At, Snaps, Ids, Valid, Chained, Model, D.Typed, P.InBounds, P.PostAll, M.Channels.Valid, C.BufferCache.Valid,
        C.BufferCache.Map;
      BatchAgrees();
      PassEnds(before, Model());
    }

    // ----- probe_incomming_messages_ -----

    method TakeOldest() returns (m: Option<Message>)
      requires Valid()
      modifies ucx`unexpected
      ensures Valid()
      ensures var u := old(ucx.unexpected);
              if u == [] then m == None && Model() == old(Model())
              else m == Some(u[0]) && Model() == old(Model()).(index := old(Index()).(unexpected := u[1..]))
    {
      hide At, Snaps, Ids;
      m := ucx.ProbeNb();
    }

    method StoreMessage(c: nat, m: Message)
      requires Valid() && recvList.Valid() && c < MAX_CHANNELS
      modifies recvList`content, recvList`owned, recvList`repr, recvList.all, recvList.repr
      ensures Valid() && recvList.Valid() && fresh(recvList.repr - old(recvList.repr))
      ensures Shaped(old(Index()))
      ensures var x := old(Index());
              Model() == old(Model()).(index := x.(lists := x.lists[c := x.lists[c] + [m]]))
    {
      hide At, Snaps, Ids, M.Channels.Valid;
      recvList.Append(c, m);
    }

    /** One probe of the transport (CONF_PROBE_THRESH is 1). */
    method ProbeIncoming()
      requires Valid() && recvList.Valid()
      modifies recvList`content, recvList`owned, recvList`repr, recvList.all, recvList.repr, ucx`unexpected
      ensures Valid() && recvList.Valid() && Shaped(old(Model()).index) && fresh(recvList.repr - old(recvList.repr))
      ensures Model() == if old(Model()).index.unexpected == [] then old(Model())
                         else old(Model()).(index := Pull(old(Model()).index))
    {
      hide At, Snaps, Ids, Valid, Model, DecodeTag, M.Channels.Valid;
      ListsAgree();
      var m := TakeOldest();
      ListsAgree();
      if m.Some? {
        StoreMessage(Chan(m.value.tag), m.value);
      }
    }

    // ----- process_ops_queue_ -----

    /** queues_emtpy_ */
    method AreQueuesEmpty() returns (b: bool)
      requires Valid() && Chained()
      ensures b <==> E.QueuesEmpty(Model())
    {
      hide At, Q.RequestLists.Holds;
      queues.EndsTell(Chains());
      queues.ThreeKinds();
      b := ops.len == 0 && queues.send.len == 0 && queues.recv.len == 0 && queues.probe.len == 0;
    }

    lemma OpsAgree()
      requires Valid()
      ensures |inFlight| == ops.len == |Model().ops| && ops.Contents() == inFlight && ops.Valid()
      ensures forall i | 0 <= i < |inFlight| :: Model().ops[i] == inFlight[i].Snap()
      ensures Model().index.given == ucx.given
    {
    }

    /** array_remove on the operations: the swapped-out request is on its own. */
    method RemoveOp(idx: nat) returns (r: Request)
      requires Valid() && idx < |inFlight|
      modifies this`inFlight, ops`len, ops.ptr
      ensures Valid() && Apart(r) && r.Linked() && r == old(inFlight[idx]) && inFlight == SwapRemove(old(inFlight), idx)
      ensures idx < |old(Model()).ops| && r.Snap() == old(Model()).ops[idx]
      ensures Model() == old(Model()).(ops := SwapRemove(old(Model()).ops, idx))
    {
      hide At, Snaps, Ids, M.Channels.Valid;
      AtSwapRemove(inFlight, idx, InFlight);
      PlaceTells(inFlight[idx]);
      r := ops.ptr[idx];
      ops.Remove(idx);
      inFlight := SwapRemove(inFlight, idx);
    }

    method UncountSend(r: Request)
      requires Valid()
      modifies this`sendCount
      ensures Valid()
      ensures Model() == old(Model()).(sendCount :=
                if r.kind == E.SendKind then old(Model()).sendCount - 1 else old(Model()).sendCount)
    {
      hide At, Snaps, Ids, M.Channels.Valid;
      if r.kind == E.SendKind {
        sendCount := sendCount - 1;
      }
    }

    /** The branch for a finished operation: the fields of a receive are decoded
        from what the transport reports, the operation is swapped out, and the
        request is completed. */
    method FinishOne(idx: nat)
      requires Valid() && idx < |inFlight|
      requires inFlight[idx].kind == E.RecvKind ==> inFlight[idx].ticket in ucx.given
      modifies this`inFlight, this`sendCount, this`user, this`log, ops`len, ops.ptr
      modifies inFlight`channel, inFlight`source, inFlight`tag, inFlight`completed, inFlight`place
      ensures Valid() && ops.ptr == old(ops.ptr)
      ensures inFlight == SwapRemove(old(inFlight), idx) && old(inFlight[idx]) !in inFlight
      ensures user == old(user) + [old(inFlight[idx])]
      ensures idx < |old(Model()).ops| && Model() == E.DoComplete(old(Model()), idx)
    {
      hide At, Snaps, Ids, Valid, Model, SwapRemove, DecodeTag;
      OpsAgree();
      var r := RemoveOp(idx);
      if r.kind == E.RecvKind {
        var f := DecodeTag(ucx.given[r.ticket].tag);
        r.SetFields(f.channel, f.senderId, f.senderTag);
      }
      UncountSend(r);
      CompleteRequest(r, E.MessageOf(old(Model()), old(inFlight[idx].Snap())));
    }

    /** What UCX promises about a finished receive. */
    ghost predicate FinishedAreGiven()
      requires Valid()
      reads this, sendFree, recvFree, probeFree, sendQ, recvQ, batch, inFlight, user, ops, ops.ptr, recvList`content
      reads ucx`done, ucx`given
    {
      forall r | r in inFlight && r.ticket in ucx.done && r.kind == E.RecvKind :: r.ticket in ucx.given
    }

    /** One turn of process_ops_queue_ at position idx. */
    method TestOp(idx: nat) returns (next: nat, ok: bool)
      requires Valid() && FinishedAreGiven() && idx < |inFlight|
      modifies this`inFlight, this`sendCount, this`user, this`log, ops`len, ops.ptr, ucx`tested
      modifies inFlight`channel, inFlight`source, inFlight`tag, inFlight`completed, inFlight`place
      ensures idx < |old(Model()).ops|
      ensures ucx.tested == old(ucx.tested) + [old(Model()).ops[idx].ticket]
      ensures var t := old(Model()).ops[idx].ticket;
              && (ok <==> t in ucx.done || t !in ucx.broken)
              && (ok ==>
                    && Valid() && FinishedAreGiven() && ops.ptr == old(ops.ptr)
                    && Passed(old(inFlight), old(user), inFlight, user)
                    && next == (if t in ucx.done then idx else idx + 1)
                    && Model() == if t in ucx.done then E.DoComplete(old(Model()), idx) else old(Model()))
    {
      hide At, Snaps, Ids, Valid, Model, SwapRemove;
      OpsAgree();
      var r := ops.ptr[idx];
      assert r == inFlight[idx] == ops.Contents()[idx] && r in inFlight;
      next := idx;
      ok := true;
      var t := ucx.RequestTest(r.ticket);
      match t {
        case Running =>
          next := idx + 1;
        case Finished =>
          SwapRemoveMembers(inFlight, idx);
          FinishOne(idx);
        case Broken =>
          var _ := RemoveOp(idx);
          ok := false;
      }
    }

    /** The pass over the operations, begun in state s0, stands at position idx. */
    ghost predicate Scanning(idx: nat, s0: E.State, asked: seq<nat>)
      reads this, sendFree, recvFree, probeFree, sendQ, recvQ, batch, inFlight, user, ops, ops.ptr, recvList`content
      reads ucx`unexpected, ucx`posted, ucx`given, ucx`done, ucx`broken, ucx`tested
    {
      && Valid() && FinishedAreGiven() && idx <= |Model().ops|
      && P.Scan(Model(), ucx.done, idx) == P.Scan(s0, ucx.done, 0)
      && ucx.tested + Asked(Model(), ucx.done, idx) == asked + Asked(s0, ucx.done, 0)
      && P.MeetsBroken(Model().ops, ucx.done, ucx.broken, idx) == P.MeetsBroken(s0.ops, ucx.done, ucx.broken, 0)
    }

    /** One turn of the loop. */
    method ScanOne(idx: nat, ghost s0: E.State, ghost asked: seq<nat>) returns (next: nat, ok: bool)
      requires Scanning(idx, s0, asked) && idx < |inFlight|
      modifies this`inFlight, this`sendCount, this`user, this`log, ops`len, ops.ptr, ucx`tested
      modifies inFlight`channel, inFlight`source, inFlight`tag, inFlight`completed, inFlight`place
      ensures !ok ==> P.MeetsBroken(s0.ops, ucx.done, ucx.broken, 0)
      ensures ok ==>
                && Scanning(next, s0, asked) && ops.ptr == old(ops.ptr)
                && next <= |inFlight| && |inFlight| - next < |old(inFlight)| - idx
                && Passed(old(inFlight), old(user), inFlight, user)
    {
      hide At, Snaps, Ids, Valid, Model, FinishedAreGiven, Passed, P.Scan, P.MeetsBroken, Asked, E.DoComplete;
      OpsAgree();
      ghost var s := Model();
      ScanNext(s, ucx.done, ucx.broken, idx);
      next, ok := TestOp(idx);
      if ok {
        OpsAgree();
        assert ucx.tested + Asked(Model(), ucx.done, next) == old(ucx.tested) + Asked(s, ucx.done, idx);
      }
    }

    /** process_ops_queue_: one pass over the operations. It reports an error
        exactly when it comes across an operation the transport reports as
        broken; otherwise it completes the finished ones and leaves the rest. */
    method ProcessOpsQueue() returns (status: Status)
      requires Valid() && FinishedAreGiven()
      modifies this`inFlight, this`sendCount, this`user, this`log, ops`len, ops.ptr, ucx`tested
      modifies inFlight`channel, inFlight`source, inFlight`tag, inFlight`completed, inFlight`place
      ensures status == Success || status == InternalError
      ensures status == InternalError <==> P.MeetsBroken(old(Model()).ops, ucx.done, ucx.broken, 0)
      ensures status == Success ==> Valid() && Model() == P.Scan(old(Model()), ucx.done, 0)
      ensures status == Success ==>
                ucx.tested == old(ucx.tested) + Asked(old(Model()), ucx.done, 0)
      ensures status == Success ==> Passed(old(inFlight), old(user), inFlight, user)
    {
      hide At, Snaps, Ids, Valid, Model, FinishedAreGiven, Passed, P.Scan, P.MeetsBroken, Asked, Scanning;
      var idx: nat := 0;
      StartScan();
      PassedOn(inFlight, user, inFlight, user, inFlight, user);
      while idx < ops.len
        invariant Scanning(idx, old(Model()), old(ucx.tested)) && ops.ptr == old(ops.ptr)
        invariant idx <= |inFlight| == ops.len
        invariant Passed(old(inFlight), old(user), inFlight, user)
        decreases |inFlight| - idx
      {
        StillThere(old(inFlight), old(user), inFlight, user);
        ghost var q, u := inFlight, user;
        var next, ok := ScanOne(idx, old(Model()), old(ucx.tested));
        if !ok {
          return InternalError;
        }
        PassedOn(old(inFlight), old(user), q, u, inFlight, user);
        StandsIn(next, old(Model()), old(ucx.tested));
        idx := next;
      }
      EndScan(old(Model()), old(ucx.tested));
      status := Success;
    }

    lemma StartScan()
      requires Valid() && FinishedAreGiven()
      ensures Scanning(0, Model(), ucx.tested) && |inFlight| == ops.len
    {
      hide At, Snaps, Ids, Valid, Model, FinishedAreGiven;
      OpsAgree();
    }

    lemma StandsIn(idx: nat, s0: E.State, asked: seq<nat>)
      requires Scanning(idx, s0, asked)
      ensures idx <= |inFlight| == ops.len
    {
      hide At, Snaps, Ids, Valid, Model, FinishedAreGiven;
      OpsAgree();
    }

    lemma EndScan(s0: E.State, asked: seq<nat>)
      requires Scanning(|inFlight|, s0, asked)
      ensures Valid() && Model() == P.Scan(s0, ucx.done, 0) && ucx.tested == asked + Asked(s0, ucx.done, 0)
      ensures !P.MeetsBroken(s0.ops, ucx.done, ucx.broken, 0)
    {
      hide At, Snaps, Ids, Valid, Model, FinishedAreGiven, P.Scan, P.MeetsBroken, Asked;
      OpsAgree();
      ScanNext(Model(), ucx.done, ucx.broken, |inFlight|);
    }
  }

  /** clh_create: a handle with its lists, its operations, its channel lists and
      its cache, all empty. */
  method Create() returns (h: Handle)
    ensures h.Valid() && h.Chained() && h.recvList.Valid() && h.cache.Valid() && h.Model() == E.Empty() && h.run
    ensures fresh(h) && fresh(h.queues) && fresh(h.queues.lists) && h.queues.nodes == {} && fresh(h.ops)
    ensures fresh(h.ops.ptr) && fresh(h.recvList) && fresh(h.recvList.all) && fresh(h.recvList.repr) && fresh(h.ucx)
    ensures fresh(h.cache.Footprint()) && forall k :: h.Pool(k) == []
  {
    hide C.BufferCache.Valid, C.BufferCache.Map, M.Channels.Valid, C.BufferCache.Footprint, Q.RequestLists.Holds,
      Handle.Valid, Handle.Model, Handle.Chained;
    var none := new Request(0, E.SendKind);
    var queues := new Q.RequestLists();
    var ops := new Vector<Request>(1024, none);
    var recvList := new M.Channels(10);
    var ucx := new Ucx();
    var cache := new C.BufferCache(8192);
    assert recvList.content == E.Empty().index.lists;
    h := new Handle(queues, ops, recvList, ucx, cache);
  }

  /** From q, some requests have been passed to the user. */
  ghost predicate Passed(q: seq<Request>, u: seq<Request>, q': seq<Request>, u': seq<Request>) {
    && u <= u'
    && (forall r | r in q' :: r in q)
    && (forall r | r in q :: r in q' || r in u')
  }

  lemma PassedOn(q: seq<Request>, u: seq<Request>, q1: seq<Request>, u1: seq<Request>,
                 q2: seq<Request>, u2: seq<Request>)
    ensures Passed(q, u, q, u)
    ensures Passed(q, u, q1, u1) && Passed(q1, u1, q2, u2) ==> Passed(q, u, q2, u2)
  {
  }

  lemma StillThere(q: seq<Request>, u: seq<Request>, q': seq<Request>, u': seq<Request>)
    requires Passed(q, u, q', u')
    ensures forall i | 0 <= i < |q'| :: q'[i] in q
  {
  }

  lemma OneOn(ops: seq<Request>, chain: seq<Request>, k: nat)
    requires k < |chain|
    ensures ops + chain[..k] + [chain[k]] == ops + chain[..k + 1]
  {
  }

  /** What clh_list_new_node does before it takes the head of the free chain. */
  ghost function WithSpare(s: E.State, k: E.Kind): E.State {
    if E.FreeOf(s.free, k) != [] then s
    else s.(home := s.home + [k], free := E.WithFree(s.free, k, [|s.home|]))
  }

  lemma TakeSpare(s: E.State, k: E.Kind)
    ensures var s1 := WithSpare(s, k);
            var f := E.FreeOf(s1.free, k);
            && f != [] && f[0] == E.NodeFor(s, k)
            && s1.(free := E.WithFree(s1.free, k, f[1..])) == E.AfterNew(s, k)
  {
  }

  ghost function Rest(q: seq<Request>): seq<Request> {
    if q == [] then [] else q[1..]
  }

  ghost function First(q: seq<Request>): set<Request> {
    if q == [] then {} else {q[0]}
  }

  lemma ReadyMeans(s: E.State, i: nat)
    requires i < |s.ops|
    ensures E.Ready(s, s.ops[i]) <==> s.ops[i].body.SendBody? || s.ops[i].ticket in s.index.given
    ensures !E.Ready(s, s.ops[i]) ==> P.Blocked(s, s.ops[i].ticket)
  {
    assert s.ops[i] in s.ops;
  }

  function Tickets(q: seq<E.Request>): seq<nat> {
    seq(|q|, i requires 0 <= i < |q| => q[i].ticket)
  }

  /** The tickets the scan still asks about. */
  function Asked(s: E.State, done: set<nat>, idx: nat): seq<nat> {
    Tickets(P.Tested(s.ops, done, idx))
  }

  /** The scan after the test of one operation, and at its end. */
  lemma ScanNext(s: E.State, done: set<nat>, broken: set<nat>, idx: nat)
    requires idx <= |s.ops|
    ensures idx == |s.ops| ==>
              P.Scan(s, done, idx) == s && Asked(s, done, idx) == [] && !P.MeetsBroken(s.ops, done, broken, idx)
    ensures idx < |s.ops| && s.ops[idx].ticket in done ==>
              var s' := E.DoComplete(s, idx);
              && |s'.ops| == |s.ops| - 1
              && P.Scan(s, done, idx) == P.Scan(s', done, idx)
              && Asked(s, done, idx) == [s.ops[idx].ticket] + Asked(s', done, idx)
              && P.MeetsBroken(s.ops, done, broken, idx) == P.MeetsBroken(s'.ops, done, broken, idx)
    ensures idx < |s.ops| && s.ops[idx].ticket !in done ==>
              && P.Scan(s, done, idx) == P.Scan(s, done, idx + 1)
              && Asked(s, done, idx) == [s.ops[idx].ticket] + Asked(s, done, idx + 1)
              && (P.MeetsBroken(s.ops, done, broken, idx)
                  == (s.ops[idx].ticket in broken || P.MeetsBroken(s.ops, done, broken, idx + 1)))
  {
    hide DecodeTag;
  }

  lemma PlacesDiffer(q: seq<Request>, p: Place, q': seq<Request>, p': Place)
    requires At(q, p) && At(q', p') && p != p'
    ensures forall i, j | 0 <= i < |q| && 0 <= j < |q'| :: q[i] != q'[j]
  {
    forall i, j | 0 <= i < |q| && 0 <= j < |q'|
      ensures q[i] != q'[j]
    {
      assert q[i] in q && q'[j] in q';
    }
  }

  /** The next queued receive can be handled, and the rest afterwards. */
  lemma HeadQueued(s: E.State)
    requires D.Typed(s) && P.InBounds(s) && s.batch != [] && !s.exited
    ensures s.batch[0].body.RecvBody? && s.batch[0].fields.channel < 0x100 && D.Filed(s.index) && Shaped(s.index)
    ensures var s' := E.DoPostNext(s);
            D.Typed(s') && P.InBounds(s') && !s'.exited && s'.batch == s.batch[1..] && P.PostAll(s') == P.PostAll(s)
  {
    hide D.Typed, Post, E.Matched;
    P.CanPost(s);
    D.PostNextTyped(s);
    P.PostNextInBounds(s);
    QueueFiled(s);
  }

  lemma PassEnds(s0: E.State, s: E.State)
    requires D.Typed(s0) && P.InBounds(s0) && !s0.exited && s0.batch == []
    requires D.Typed(s) && P.InBounds(s) && !s.exited && s.batch == []
    requires D.Typed(E.DoDrain(s0)) && P.InBounds(E.DoDrain(s0)) && P.PostAll(s) == P.PostAll(E.DoDrain(s0))
    ensures s == P.RecvPass(s0)
  {
  }

  lemma QueueFiled(s: E.State)
    requires D.Typed(s)
    ensures D.Filed(s.index) && Shaped(s.index)
  {
  }

  /** All of q moves to the detached chain. */
  ghost method MarkBatch(q: seq<Request>)
    requires At(q, RecvQueue)
    modifies q`place
    ensures At(q, Batch) && Snaps(q) == old(Snaps(q))
  {
    forall r | r in q { r.place := Batch; }
  }

  lemma PreallocateOne(s: E.State, k: E.Kind, n: nat)
    ensures E.Preallocate(s, k, 0) == s
    ensures var s1 := E.Preallocate(s, k, n);
            E.Preallocate(s, k, n + 1) ==
              s1.(home := s1.home + [k], free := E.WithFree(s1.free, k, [|s1.home|] + E.FreeOf(s1.free, k)))
  {
  }

  lemma NothingThere()
    ensures forall p :: At([], p)
    ensures Snaps([]) == [] && Ids([]) == []
  {
  }

  lemma AtNothing()
    ensures At([], RecvQueue) && Snaps([]) == []
  {
  }

  /** What process_recv_queue_ writes to a request for a message it found. */
  method FillRecv(r: Request, m: Message)
    requires r.body.RecvBody?
    modifies r`channel, r`source, r`tag, r`body
    ensures r.place == old(r.place) && r.channel == DecodeTag(m.tag).channel
    ensures r.Snap() == old(r.Snap()).(fields := DecodeTag(m.tag), body := old(r.body).(msg := Some(m)))
  {
    hide DecodeTag;
    var f := DecodeTag(m.tag);
    r.SetMessage(m, f.channel, f.senderId, f.senderTag);
  }

  /** What clh_probe_ writes to its request, given what the search found. */
  method FillProbe(r: Request, found: Option<Message>, ghost list: seq<Message>, want: Selector, remove: bool,
                   ticket: nat)
    requires found == if HasMatch(list, want) then Some(list[FirstMatch(list, want)]) else None
    modifies r`kind, r`completed, r`body, r`ticket, r`place, r`channel, r`source, r`tag
    ensures r.Snap() == E.Probed(r.node, list, want, remove, old(r.Fields()), ticket)
    ensures r.place == InHand
  {
    hide DecodeTag, FirstMatch;
    match found
    case Some(m) =>
      var f := DecodeTag(m.tag);
      r.SetFields(f.channel, f.senderId, f.senderTag);
      r.Prepare(E.ProbeKind, true, E.ProbeBody(true, remove, want, m.tag, m.len, Some(m)), ticket, InHand);
    case None =>
      r.Prepare(E.ProbeKind, true, E.ProbeBody(false, remove, want, 0, 0, None), ticket, InHand);
  }
}
