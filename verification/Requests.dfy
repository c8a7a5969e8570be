/** struct CLH_Request on the heap, and sequences of requests. */
module Requests {
  import opened Protocol
  import opened Sequences
  import opened Matching
  import E = Engine
  import L = List

  /** Which collection a request object is in. */
  datatype Place = Free(pool: E.Kind) | SendQueue | RecvQueue | Batch | InFlight | InHand

  /** struct CLH_Request with its list node. */
  class Request {
    const node: nat
    var kind: E.Kind
    var completed: bool
    var channel: bv32
    var source: bv32
    var tag: bv32
    var body: E.Body
    var mem: nat            // address of the buffer
    var ticket: nat         // number of the submission, by which the transport knows it
    var link: L.Node?<()>   // the list node in front of the request
    ghost var place: Place

    /** A new node is raw memory: its channel, source and tag are whatever was
        there before. */
    constructor (node: nat, kind: E.Kind)
      ensures this.node == node && this.kind == kind && place == Free(kind) && Linked() && fresh(link)
    {
      this.node := node;
      this.kind := kind;
      completed := false;
      body := E.SendBody(0, 0);
      ticket := 0;
      place := Free(kind);
      new;
      link := new L.Node<()>(this);
    }

    /** clh_list_node_from_data and back again. */
    ghost predicate Linked()
      reads this`link
    {
      link != null && link.owner == this
    }

    /** The writes an entry point does before it queues or returns the request. */
    method Prepare(kind: E.Kind, completed: bool, body: E.Body, ticket: nat, ghost place: Place)
      modifies this`kind, this`completed, this`body, this`ticket, this`place
      ensures Snap() == E.Request(node, kind, completed, old(Fields()), body, ticket)
      ensures this.place == place
    {
      this.kind, this.completed, this.body, this.ticket, this.place := kind, completed, body, ticket, place;
    }

    method SetFields(channel: bv32, source: bv32, tag: bv32)
      modifies this`channel, this`source, this`tag
      ensures Snap() == old(Snap()).(fields := Protocol.Fields(channel, source, tag)) && place == old(place)
      ensures ticket == old(ticket)
    {
      this.channel, this.source, this.tag := channel, source, tag;
    }

    /** The writes of process_recv_queue_ for a message found in a list. */
    method SetMessage(m: Message, channel: bv32, source: bv32, tag: bv32)
      requires body.RecvBody?
      modifies this`channel, this`source, this`tag, this`body
      ensures Snap() == old(Snap()).(fields := Protocol.Fields(channel, source, tag),
                                     body := old(body).(msg := Some(m)))
      ensures place == old(place)
    {
      this.channel, this.source, this.tag, body := channel, source, tag, body.(msg := Some(m));
    }

    function Fields(): Fields
      reads this
    {
      Protocol.Fields(channel, source, tag)
    }

    ghost function Snap(): E.Request
      reads this
    {
      E.Request(node, kind, completed, Fields(), body, ticket)
    }
  }

  ghost function Snaps(q: seq<Request>): seq<E.Request>
    reads q
  {
    seq(|q|, i requires 0 <= i < |q| reads q => q[i].Snap())
  }

  ghost function Ids(q: seq<Request>): seq<nat> {
    seq(|q|, i requires 0 <= i < |q| => q[i].node)
  }

  ghost predicate At(q: seq<Request>, p: Place)
    reads q
  {
    && (forall r | r in q :: r.place == p && r.Linked())
    && (forall i, j | 0 <= i < j < |q| :: q[i] != q[j])
  }

  // Facts about At and Snaps, so that their definitions can stay out of the way.

  lemma AtHead(q: seq<Request>, p: Place)
    requires At(q, p) && q != []
    ensures At(q[1..], p) && q[0].place == p && q[0].Linked() && q[0] !in q[1..]
    ensures Snaps(q) == [q[0].Snap()] + Snaps(q[1..])
    ensures Ids(q) == [q[0].node] + Ids(q[1..])
  {
  }

  lemma AtLast(q: seq<Request>, p: Place)
    requires At(q, p) && q != []
    ensures At(DropLast(q), p) && Last(q).place == p && Last(q).Linked() && Last(q) !in DropLast(q)
    ensures Snaps(DropLast(q)) == DropLast(Snaps(q)) && Last(q).Snap() == Last(Snaps(q)) && Snaps(q) != []
  {
  }

  lemma AtAppend(q: seq<Request>, r: Request, p: Place)
    requires At(q, p) && r !in q && r.place == p && r.Linked()
    ensures At(q + [r], p) && Snaps(q + [r]) == Snaps(q) + [r.Snap()]
  {
  }

  lemma AtPrepend(q: seq<Request>, r: Request, p: Place)
    requires At(q, p) && r !in q && r.place == p && r.Linked()
    ensures At([r] + q, p) && Ids([r] + q) == [r.node] + Ids(q)
  {
  }

  lemma AtWithout(q: seq<Request>, i: nat, p: Place)
    requires At(q, p) && i < |q|
    ensures At(Without(q, i), p) && q[i].place == p && q[i].Linked() && q[i] !in Without(q, i)
    ensures Snaps(Without(q, i)) == Without(Snaps(q), i) && Snaps(q)[i] == q[i].Snap() && |Snaps(q)| == |q|
  {
  }

  lemma AtSwapRemove(q: seq<Request>, i: nat, p: Place)
    requires At(q, p) && i < |q|
    ensures At(SwapRemove(q, i), p) && q[i].place == p && q[i].Linked() && q[i] !in SwapRemove(q, i)
    ensures Snaps(SwapRemove(q, i)) == SwapRemove(Snaps(q), i) && Snaps(q)[i] == q[i].Snap() && |Snaps(q)| == |q|
  {
  }
}
