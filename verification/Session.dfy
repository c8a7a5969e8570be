/** Whole lives of a buffer cache: any sequence of calls between create and
    destroy, answered as a plain map from address to handle would. */
module Session {
  import opened Sequences
  import opened Cache

  /** A call, with what the transport answers to the mapping or unmapping. */
  datatype Call =
    | Register(mem: nat, memh: Option<nat>)
    | Unregister(mem: nat, unmapOk: bool)

  datatype Reply = Entry(outcome: Outcome) | Gone(ok: bool)

  /** The call maps a buffer: a miss that the transport serves. */
  predicate Maps(m: map<nat, nat>, call: Call) {
    call.Register? && call.mem != 0 && call.mem !in m && call.memh.Some?
  }

  function After(m: map<nat, nat>, call: Call): map<nat, nat> {
    match call
    case Register(mem, memh) => if Maps(m, call) then m[mem := memh.value] else m
    case Unregister(mem, unmapOk) => if unmapOk then m - {mem} else m
  }

  function Answer(m: map<nat, nat>, call: Call): Reply {
    match call
    case Register(mem, memh) =>
      if mem == 0 then Entry(NullBuffer)
      else if mem in m then Entry(Registered(mem, m[mem]))
      else if memh.Some? then Entry(Registered(mem, memh.value))
      else Entry(Aborted)
    case Unregister(mem, unmapOk) => Gone(mem in m && unmapOk)
  }

  /** The mapping fails, and the assertion at the end of register_or_get stops
      the program (cache.c:162). */
  predicate Stops(m: map<nat, nat>, call: Call) {
    Answer(m, call) == Entry(Aborted)
  }

  /** No call stops the program. */
  predicate Finishes(m: map<nat, nat>, calls: seq<Call>)
    decreases |calls|
  {
    calls != [] ==> !Stops(m, calls[0]) && Finishes(After(m, calls[0]), calls[1..])
  }

  function AfterAll(m: map<nat, nat>, calls: seq<Call>): map<nat, nat>
    decreases |calls|
  {
    if calls == [] || Stops(m, calls[0]) then m else AfterAll(After(m, calls[0]), calls[1..])
  }

  function Answers(m: map<nat, nat>, calls: seq<Call>): seq<Reply>
    decreases |calls|
  {
    if calls == [] then []
    else [Answer(m, calls[0])] + (if Stops(m, calls[0]) then [] else Answers(After(m, calls[0]), calls[1..]))
  }

  /** The handles that the calls map, in order. */
  function Mapped(m: map<nat, nat>, calls: seq<Call>): seq<nat>
    decreases |calls|
  {
    if calls == [] || Stops(m, calls[0]) then []
    else (if Maps(m, calls[0]) then [calls[0].memh.value] else []) + Mapped(After(m, calls[0]), calls[1..])
  }

  /** The call unmaps a buffer. */
  predicate Unmaps(m: map<nat, nat>, call: Call) {
    call.Unregister? && call.mem in m && call.unmapOk
  }

  /** The handles that unregistering unmaps, in order. */
  function Unmapped(m: map<nat, nat>, calls: seq<Call>): seq<nat>
    decreases |calls|
  {
    if calls == [] || Stops(m, calls[0]) then []
    else (if Unmaps(m, calls[0]) then [m[calls[0].mem]] else []) + Unmapped(After(m, calls[0]), calls[1..])
  }

  method Serve(cache: BufferCache, call: Call) returns (reply: Reply)
    requires cache.Valid()
    modifies cache.Footprint()
    ensures cache.Valid() && forall o | o in cache.Footprint() :: o in old(cache.Footprint()) || fresh(o)
    ensures cache.Map() == After(old(cache.Map()), call) && reply == Answer(old(cache.Map()), call)
    ensures cache.mapped == old(cache.mapped) + (if Maps(old(cache.Map()), call) then [call.memh.value] else [])
    ensures cache.unmapped
            == old(cache.unmapped) + (if Unmaps(old(cache.Map()), call) then [old(cache.Map())[call.mem]] else [])
  {
    hide BufferCache.Valid, BufferCache.Map;
    match call
    case Register(mem, memh) =>
      var r := cache.RegisterOrGet(mem, memh);
      reply := Entry(r);
    case Unregister(mem, unmapOk) =>
      var ok := cache.Unregister(mem, unmapOk);
      reply := Gone(ok);
  }

  lemma Unfold(m: map<nat, nat>, calls: seq<Call>)
    ensures calls == [] || Stops(m, calls[0]) ==>
      AfterAll(m, calls) == m && Mapped(m, calls) == [] && Unmapped(m, calls) == []
    ensures calls == [] ==> Answers(m, calls) == [] && Finishes(m, calls)
    ensures calls != [] && Stops(m, calls[0]) ==>
      && Answers(m, calls) == [Entry(Aborted)] && !Finishes(m, calls)
      && After(m, calls[0]) == m && !Maps(m, calls[0]) && !Unmaps(m, calls[0])
    ensures calls != [] && !Stops(m, calls[0]) ==>
      var m', rest := After(m, calls[0]), calls[1..];
      && AfterAll(m, calls) == AfterAll(m', rest) && Finishes(m, calls) == Finishes(m', rest)
      && Answers(m, calls) == [Answer(m, calls[0])] + Answers(m', rest)
      && Mapped(m, calls) == (if Maps(m, calls[0]) then [calls[0].memh.value] else []) + Mapped(m', rest)
      && Unmapped(m, calls) == (if Unmaps(m, calls[0]) then [m[calls[0].mem]] else []) + Unmapped(m', rest)
  {
    if calls != [] && Stops(m, calls[0]) {
      assert calls[0].Register?;
    }
  }

  /** Call after call, until one stops the program. */
  method ServeAll(cache: BufferCache, calls: seq<Call>) returns (replies: seq<Reply>, finished: bool)
    requires cache.Valid()
    modifies cache.Footprint()
    ensures cache.Valid()
    ensures cache.Map() == AfterAll(old(cache.Map()), calls) && replies == Answers(old(cache.Map()), calls)
    ensures cache.mapped == old(cache.mapped) + Mapped(old(cache.Map()), calls)
    ensures cache.unmapped == old(cache.unmapped) + Unmapped(old(cache.Map()), calls)
    ensures finished <==> Finishes(old(cache.Map()), calls)
    decreases |calls|
  {
    hide BufferCache.Valid, BufferCache.Map, After, Answer, Maps, Unmaps, AfterAll, Answers, Mapped, Unmapped, Finishes;
    Unfold(cache.Map(), calls);
    if calls == [] {
      return [], true;
    }
    var first := Serve(cache, calls[0]);
    if first == Entry(Aborted) {
      return [first], false;
    }
    var rest;
    rest, finished := ServeAll(cache, calls[1..]);
    replies := [first] + rest;
  }

  /** From create to destroy: the replies are the map's, and unless the program
      was stopped, destroy unmaps one handle for every mapping ever made, in
      that order. `early` are the handles that unregistering had unmapped. */
  method Life(blockSize: nat, calls: seq<Call>)
    returns (replies: seq<Reply>, finished: bool, unmaps: seq<nat>, ghost early: seq<nat>)
    requires blockSize > 0
    ensures replies == Answers(map[], calls)
    ensures finished <==> Finishes(map[], calls)
    ensures unmaps == (if finished then Mapped(map[], calls) else []) && early == Unmapped(map[], calls)
  {
    var cache := new BufferCache(blockSize);
    replies, finished := ServeAll(cache, calls);
    early, unmaps := cache.unmapped, [];
    if finished {
      unmaps := cache.Destroy();
    }
  }

  // ----- what the map answers -----

  /** Until the address is unregistered, every hit on it returns the handle of
      its registration, whatever handles the transport offers. */
  lemma {:induction false} FirstHandleStays(m: map<nat, nat>, calls: seq<Call>, mem: nat)
    requires mem != 0 && mem in m && Unregister(mem, true) !in calls
    ensures mem in AfterAll(m, calls) && AfterAll(m, calls)[mem] == m[mem]
    ensures |Answers(m, calls)| <= |calls|
    ensures forall i | 0 <= i < |Answers(m, calls)| && calls[i].Register? && calls[i].mem == mem ::
              Answers(m, calls)[i] == Entry(Registered(mem, m[mem]))
    decreases |calls|
  {
    if calls != [] {
      assert calls[0] in calls && Unregister(mem, true) !in calls[1..];
      FirstHandleStays(After(m, calls[0]), calls[1..], mem);
    }
  }

  lemma {:induction false} UnmappedWereMapped(m: map<nat, nat>, calls: seq<Call>)
    ensures forall h | h in Unmapped(m, calls) :: h in Mapped(m, calls) || h in m.Values
    decreases |calls|
  {
    if calls != [] {
      UnmappedWereMapped(After(m, calls[0]), calls[1..]);
    }
  }

  predicate Distinct(q: seq<nat>) {
    forall i, j | 0 <= i < j < |q| :: q[i] != q[j]
  }

  predicate OnceEach(all: seq<nat>, handles: seq<nat>) {
    forall h | h in handles :: multiset(all)[h] == 1
  }

  /** No unregister succeeds. */
  predicate NoneUnmaps(m: map<nat, nat>, calls: seq<Call>) {
    forall c: nat | c < |calls| :: !Unmaps(AfterAll(m, calls[..c]), calls[c])
  }

  /** When the transport never gives the same handle twice: a whole life unmaps
      every handle exactly once if and only if no unregister succeeded. */
  lemma LifeUnmapsOnce(calls: seq<Call>)
    requires Finishes(map[], calls) && Distinct(Mapped(map[], calls))
    ensures OnceEach(Unmapped(map[], calls) + Mapped(map[], calls), Mapped(map[], calls)) <==> NoneUnmaps(map[], calls)
  {
    hide Distinct, OnceEach, NoneUnmaps;
    UnmappedWereMapped(map[], calls);
    EarlyMeans(map[], calls);
    EarlyIsTwice(Mapped(map[], calls), Unmapped(map[], calls));
  }

  /** A handle mapped once is unmapped once in all if and only if no unregister
      had unmapped it. */
  lemma UnmappedExactlyOnce(mapped: seq<nat>, unmapped: seq<nat>, h: nat)
    requires (forall i, j | 0 <= i < j < |mapped| :: mapped[i] != mapped[j]) && h in mapped
    ensures multiset(unmapped + mapped)[h] == 1 <==> h !in unmapped
  {
    var i :| 0 <= i < |mapped| && mapped[i] == h;
    assert mapped == mapped[..i] + [h] + mapped[i + 1..];
    assert h !in mapped[..i] && h !in mapped[i + 1..];
  }

  lemma EarlyIsTwice(late: seq<nat>, early: seq<nat>)
    requires Distinct(late)
    requires forall h | h in early :: h in late
    ensures OnceEach(early + late, late) <==> early == []
  {
    forall h | h in late
      ensures multiset(early + late)[h] == 1 <==> h !in early
    {
      UnmappedExactlyOnce(late, early, h);
    }
    if early != [] {
      assert early[0] in early;
    }
  }

  lemma {:induction false} EarlyMeans(m: map<nat, nat>, calls: seq<Call>)
    requires Finishes(m, calls)
    ensures Unmapped(m, calls) == [] <==> NoneUnmaps(m, calls)
    decreases |calls|
  {
    if calls != [] {
      var m', rest := After(m, calls[0]), calls[1..];
      EarlyMeans(m', rest);
      assert calls[..0] == [];
      assert AfterAll(m, calls[..0]) == m;
      forall c: nat | 0 < c < |calls|
        ensures AfterAll(m, calls[..c]) == AfterAll(m', rest[..c - 1]) && calls[c] == rest[c - 1]
      {
        assert calls[..c][1..] == rest[..c - 1];
      }
      if NoneUnmaps(m, calls) {
        forall c: nat | c < |rest|
          ensures !Unmaps(AfterAll(m', rest[..c]), rest[c])
        {
          assert calls[c + 1] == rest[c];
        }
      }
    }
  }

  /** The shortest life that unmaps a handle twice: register, unregister, destroy. */
  lemma UnmappedTwice()
    ensures var calls := [Register(1, Some(7)), Unregister(1, true)];
            Finishes(map[], calls) && Unmapped(map[], calls) + Mapped(map[], calls) == [7, 7]
  {
    var calls := [Register(1, Some(7)), Unregister(1, true)];
    var m1 := After(map[], calls[0]);
    assert m1 == map[1 := 7];
    assert calls[1..][0] == Unregister(1, true) && calls[1..][1..] == [];
  }
}
