/** The request engine of clh/clh.c as a machine of atomic steps: user calls,
    worker actions and transport events. Requests are values here; a request
    lives in exactly one of the collections of the state. Handle.dfy carries
    out the same steps on mutable requests. */
module Engine {
  import opened Protocol
  import opened Sequences
  import opened Matching

  /** CONF_SEND_THRESH */
  const SEND_WINDOW: nat := 1024

  /** The type of a request names the pool its node was allocated in. */
  datatype Kind = SendKind | RecvKind | ProbeKind

  /** The union of struct CLH_Request. */
  datatype Body =
    | SendBody(sendTag: bv64, dest: bv32)
    | RecvBody(want: Selector, msg: Option<Message>)
    | ProbeBody(result: bool, remove: bool, sought: Selector, senderTag: bv64, bufferLen: nat,
                found: Option<Message>)

  /** `ticket` numbers the submissions; the program has no such field. */
  datatype Request = Request(node: nat, kind: Kind, completed: bool, fields: Fields, body: Body, ticket: nat)

  /** The free list of each pool, head first. */
  datatype Pools = Pools(send: seq<nat>, recv: seq<nat>, probe: seq<nat>)

  function FreeOf(p: Pools, k: Kind): seq<nat> {
    match k
    case SendKind => p.send
    case RecvKind => p.recv
    case ProbeKind => p.probe
  }

  function WithFree(p: Pools, k: Kind, f: seq<nat>): (r: Pools)
    ensures forall k' :: FreeOf(r, k') == if k' == k then f else FreeOf(p, k')
  {
    match k
    case SendKind => p.(send := f)
    case RecvKind => p.(recv := f)
    case ProbeKind => p.(probe := f)
  }

  /** A finished submission and, for a receive, the message it was given. */
  datatype Completion = Completion(request: Request, message: Option<Message>)

  datatype State = State(
    home: seq<Kind>,          // the pool of every node ever allocated
    free: Pools,
    sendQ: seq<Request>,      // request_queues[SEND], tail last
    recvQ: seq<Request>,      // request_queues[RECV]
    batch: seq<Request>,      // chain detached by clh_list_get_all_nodes, not yet processed
    ops: seq<Request>,        // ops_queue
    user: seq<Request>,       // completed requests not yet released
    sendCount: int,
    index: Index,
    run: bool,
    exited: bool,
    // history
    arrived: seq<Message>,
    dropped: seq<Message>,
    tickets: nat,
    log: seq<Completion>)

  function Empty(): State {
    State([], Pools([], [], []), [], [], [], [], [], 0,
          Index(seq(MAX_CHANNELS, _ => []), [], [], map[]), true, false, [], [], 0, [])
  }

  /** clh_list_init allocates `n` nodes, each put at the head of the free list. */
  function Preallocate(s: State, k: Kind, n: nat): State {
    if n == 0 then s
    else
      var s1 := Preallocate(s, k, n - 1);
      s1.(home := s1.home + [k], free := WithFree(s1.free, k, [|s1.home|] + FreeOf(s1.free, k)))
  }

  /** start_: three queues of one capacity (the code says 10), and run is true. */
  function Start(capacity: nat): State {
    Preallocate(Preallocate(Preallocate(Empty(), SendKind, capacity), RecvKind, capacity), ProbeKind, capacity)
  }

  datatype Step =
    | Arrival(m: Message)
    | Send(channel: bv32, me: bv32, dest: bv32, tag: bv32)
    | Recv(want: Selector, left: Fields)
    | Probe(channel: bv32, want: Selector, remove: bool, left: Fields)
    | RequestRecv(i: nat)
    | Release(i: nat)
    | PullOne
    | SubmitSend
    | Drain
    | PostNext
    | Complete(i: nat)
    | Stop
    | Exit

  // ----- nodes -----

  /** clh_list_new_node: the head of the pool's free list, or a new allocation. */
  function NodeFor(s: State, k: Kind): nat {
    if FreeOf(s.free, k) == [] then |s.home| else FreeOf(s.free, k)[0]
  }

  function AfterNew(s: State, k: Kind): (r: State)
    ensures r == s.(home := r.home, free := r.free)
  {
    var f := FreeOf(s.free, k);
    s.(home := if f == [] then s.home + [k] else s.home,
       free := if f == [] then s.free else WithFree(s.free, k, f[1..]))
  }

  // ----- user calls -----

  /** clh_send */
  function DoSend(s: State, channel: bv32, me: bv32, dest: bv32, tag: bv32): State {
    var r := Request(NodeFor(s, SendKind), SendKind, false, Fields(channel, me, tag),
                     SendBody(EncodeTag(channel, me, tag), dest), s.tickets);
    var s1 := AfterNew(s, SendKind);
    s1.(sendQ := s1.sendQ + [r], tickets := s1.tickets + 1)
  }

  /** clh_recv_. The channel, source and tag of the request are not written:
      `left` is what the node held before. */
  function DoRecv(s: State, want: Selector, left: Fields): State {
    var r := Request(NodeFor(s, RecvKind), RecvKind, false, left, RecvBody(want, None), s.tickets);
    var s1 := AfterNew(s, RecvKind);
    s1.(recvQ := s1.recvQ + [r], tickets := s1.tickets + 1)
  }

  /** What clh_probe_ writes to its request, searching `list`. */
  function Probed(n: nat, list: seq<Message>, want: Selector, remove: bool, left: Fields, ticket: nat): (r: Request)
    ensures r.node == n && r.kind == ProbeKind
  {
    if HasMatch(list, want) then
      var m := list[FirstMatch(list, want)];
      Request(n, ProbeKind, true, DecodeTag(m.tag), ProbeBody(true, remove, want, m.tag, m.len, Some(m)), ticket)
    else
      Request(n, ProbeKind, true, left, ProbeBody(false, remove, want, 0, 0, None), ticket)
  }

  /** clh_probe_ on list `channel`. */
  function DoProbe(s: State, channel: bv32, want: Selector, remove: bool, left: Fields): State
    requires Shaped(s.index) && channel < 0x100
  {
    var c := channel as nat;
    var list := s.index.lists[c];
    var s1 := AfterNew(s, ProbeKind);
    s1.(user := s1.user + [Probed(NodeFor(s, ProbeKind), list, want, remove, left, s.tickets)],
        index := if HasMatch(list, want) && remove then Take(s.index, c, want) else s.index)
  }

  /** clh_request_recv: the probe's request becomes a receive of the probed
      tag, and keeps its type. */
  function DoRequestRecv(s: State, i: nat): State
    requires i < |s.user| && s.user[i].body.ProbeBody?
  {
    var r := s.user[i];
    var b := r.body;
    var r' := r.(completed := false, ticket := s.tickets,
                 body := RecvBody(Exactly(b.senderTag), if b.remove then b.found else None));
    s.(user := Without(s.user, i), recvQ := s.recvQ + [r'], tickets := s.tickets + 1)
  }

  /** The message only this request refers to. */
  function Owned(r: Request): Option<Message> {
    match r.body
    case ProbeBody(_, remove, _, _, _, found) => if remove then found else None
    case RecvBody(_, msg) => if r.completed then None else msg
    case SendBody(_, _) => None
  }

  /** clh_request_release: back to the pool of its type, at the head. */
  function DoRelease(s: State, i: nat): State
    requires i < |s.user|
  {
    var r := s.user[i];
    s.(user := Without(s.user, i),
       free := WithFree(s.free, r.kind, [r.node] + FreeOf(s.free, r.kind)),
       dropped := s.dropped + (if Owned(r).Some? then [Owned(r).value] else []))
  }

  // ----- transport -----

  function DoArrival(s: State, m: Message): State {
    s.(arrived := s.arrived + [m], index := Arrive(s.index, m))
  }

  // ----- worker -----

  /** One turn of process_send_queue_: the tail of the queue is submitted. */
  function DoSubmitSend(s: State): State
    requires s.sendQ != []
  {
    s.(sendQ := DropLast(s.sendQ), ops := s.ops + [Last(s.sendQ)], sendCount := s.sendCount + 1)
  }

  /** clh_list_get_all_nodes in process_recv_queue_. */
  function DoDrain(s: State): State {
    s.(batch := s.recvQ, recvQ := [])
  }

  /** What one turn of process_recv_queue_ writes to the request. */
  function Matched(r: Request, index: Index): Request
    requires Shaped(index) && r.body.RecvBody? && r.fields.channel < 0x100
  {
    var list := index.lists[r.fields.channel as nat];
    if r.body.msg == None && HasMatch(list, r.body.want) then
      var m := list[FirstMatch(list, r.body.want)];
      r.(fields := DecodeTag(m.tag), body := r.body.(msg := Some(m)))
    else r
  }

  /** One turn of process_recv_queue_. */
  function DoPostNext(s: State): State
    requires Shaped(s.index) && s.batch != []
    requires s.batch[0].body.RecvBody? && s.batch[0].fields.channel < 0x100
  {
    var r := s.batch[0];
    s.(batch := s.batch[1..],
       ops := s.ops + [Matched(r, s.index)],
       index := match r.body.msg
         case Some(m) => Give(s.index, r.ticket, m)
         case None => Post(s.index, r.ticket, r.fields.channel as nat, r.body.want))
  }

  /** The transport reports operation r as finished: any time for a send, and
      only after a message was given to it for a receive. */
  predicate Ready(s: State, r: Request) {
    r.body.SendBody? || r.ticket in s.index.given
  }

  /** What process_ops_queue_ writes to a finished request. */
  function Finished(s: State, r: Request): Request {
    if r.kind == RecvKind && r.ticket in s.index.given then
      r.(completed := true, fields := DecodeTag(s.index.given[r.ticket].tag))
    else r.(completed := true)
  }

  function MessageOf(s: State, r: Request): Option<Message> {
    if r.body.RecvBody? && r.ticket in s.index.given then Some(s.index.given[r.ticket]) else None
  }

  /** One finished operation of process_ops_queue_. */
  function DoComplete(s: State, i: nat): State
    requires i < |s.ops|
  {
    var r := s.ops[i];
    s.(ops := SwapRemove(s.ops, i),
       sendCount := if r.kind == SendKind then s.sendCount - 1 else s.sendCount,
       user := s.user + [Finished(s, r)],
       log := s.log + [Completion(Finished(s, r), MessageOf(s, r))])
  }

  /** queues_emtpy_; the probe queue never holds a node. */
  predicate QueuesEmpty(s: State) {
    s.ops == [] && s.sendQ == [] && s.recvQ == []
  }

  // ----- runs -----

  predicate Enabled(s: State, step: Step) {
    match step
    case Arrival(m) => m.id == |s.arrived|
    case Send(_, _, _, _) => true
    case Recv(want, _) => OneChannel(want)
    case Probe(channel, want, _, _) =>
      Shaped(s.index) && channel < 0x100 && OneChannel(want) && DecodeTag(want.tag).channel == channel
    case RequestRecv(i) => i < |s.user| && s.user[i].body.ProbeBody? && s.user[i].body.result
    case Release(i) => i < |s.user|
    case PullOne => !s.exited && Shaped(s.index) && s.index.unexpected != []
    case SubmitSend => !s.exited && s.sendQ != [] && s.sendCount < SEND_WINDOW
    case Drain => !s.exited && s.batch == []
    case PostNext =>
      && !s.exited && s.batch != [] && Shaped(s.index)
      && s.batch[0].body.RecvBody? && s.batch[0].fields.channel < 0x100
    case Complete(i) => !s.exited && i < |s.ops| && Ready(s, s.ops[i])
    case Stop => true
    case Exit => !s.exited && s.batch == [] && !s.run && QueuesEmpty(s)
  }

  function Apply(s: State, step: Step): State
    requires Enabled(s, step)
  {
    match step
    case Arrival(m) => DoArrival(s, m)
    case Send(channel, me, dest, tag) => DoSend(s, channel, me, dest, tag)
    case Recv(want, left) => DoRecv(s, want, left)
    case Probe(channel, want, remove, left) => DoProbe(s, channel, want, remove, left)
    case RequestRecv(i) => DoRequestRecv(s, i)
    case Release(i) => DoRelease(s, i)
    case PullOne => s.(index := Pull(s.index))
    case SubmitSend => DoSubmitSend(s)
    case Drain => DoDrain(s)
    case PostNext => DoPostNext(s)
    case Complete(i) => DoComplete(s, i)
    case Stop => s.(run := false)
    case Exit => s.(exited := true)
  }

  /** steps can be taken one after the other from s. */
  predicate CanRun(s: State, steps: seq<Step>)
    decreases |steps|
  {
    steps != [] ==> Enabled(s, steps[0]) && CanRun(Apply(s, steps[0]), steps[1..])
  }

  function Run(s: State, steps: seq<Step>): State
    requires CanRun(s, steps)
    decreases |steps|
  {
    if steps == [] then s else Run(Apply(s, steps[0]), steps[1..])
  }
}
