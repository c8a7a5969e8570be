/** How long the worker goes on after the shutdown has begun (clh.c:407-430,
    455-467), when nothing new is submitted and the transport finishes whatever
    it can in every turn. */
module Shutdown {
  import opened Matching
  import opened Engine
  import opened Passes
  import opened Turns
  import G = Guarantees
  import I = Invariant

  /** A turn in which the transport finishes all it can. */
  ghost function FullTurn(s: State): State
    requires Between(s)
  {
    var s1 := ServePass(s);
    TurnPass(s, set r | r in s1.ops :: r.ticket)
  }

  /** n turns, if each of them starts as a turn should. */
  ghost function After(s: State, n: nat): State
    requires Between(s)
    decreases n
  {
    if n == 0 then s
    else
      FullBetween(s);
      After(FullTurn(s), n - 1)
  }

  lemma FullBetween(s: State)
    requires Between(s)
    ensures Between(FullTurn(s)) && FullTurn(s).recvQ == []
  {
    hide Between, ServePass, Scan;
    var s1 := ServePass(s);
    ServeBetween(s);
    FinishingReady(s1, set r | r in s1.ops :: r.ticket);
    ScanBetween(s1, Finishing(s1, set r | r in s1.ops :: r.ticket));
  }

  /** The scan completes everything that the transport can finish. */
  lemma NothingInProgress(s1: State)
    requires forall r | r in s1.ops :: Ready(s1, r)
    ensures Scan(s1, Finishing(s1, set r | r in s1.ops :: r.ticket), 0).ops == []
  {
    hide Scan, Ready;
    var done := Finishing(s1, set r | r in s1.ops :: r.ticket);
    assert forall r | r in s1.ops :: r.ticket in done;
    var ops := Scan(s1, done, 0).ops;
    assert s1.ops[..0] == [] && s1.ops[0..] == s1.ops;
    if ops != [] {
      assert ops[0] in multiset(ops);
      ScanLeaves(s1, done, 0, ops[0]);
    }
  }

  /** Every operation that the turn's calls leave in progress can be finished. */
  ghost predicate Answered(s: State)
    requires Between(s)
  {
    forall r | r in ServePass(s).ops :: Ready(ServePass(s), r)
  }

  /** One full turn: what is in progress is done, and the window is open. */
  lemma FullTurnDoes(s: State)
    requires G.Reachable(s) && Between(s) && Answered(s)
    ensures var s' := FullTurn(s);
            && G.Reachable(s') && Between(s') && s'.ops == [] && s'.recvQ == [] && s'.sendCount == 0
            && |s'.sendQ| == Remaining(|s.sendQ|, 1024 - s.sendCount) && s'.run == s.run
  {
    hide G.Reachable, I.Inv, Between, ServePass, Scan, Ready, Finishing, TurnPass, Stored, Collected;
    var s1 := ServePass(s);
    var finish := set r | r in s1.ops :: r.ticket;
    FullBetween(s);
    G.TurnLeads(s, finish);
    G.ReachableInv(s);
    TurnDoes(s, finish);
    TurnOps(s, finish);
    NothingInProgress(s1);
    NoSendsInFlight(FullTurn(s));
  }

  lemma TurnOps(s: State, finish: set<nat>)
    requires Between(s)
    ensures TurnPass(s, finish).ops == Scan(ServePass(s), Finishing(ServePass(s), finish), 0).ops
  {
  }

  lemma NoSendsInFlight(s: State)
    requires G.Reachable(s) && s.ops == []
    ensures s.sendCount == 0
  {
    hide G.Reachable;
    G.SendWindowHolds(s);
  }

  /** With nothing in progress and no receive queued, the next turn has only
      sends in progress, which can always be finished. */
  lemma OnlySends(s: State)
    requires Between(s) && s.ops == [] && s.recvQ == []
    ensures Answered(s)
  {
    hide Pull, SendPass, Remaining;
    PullBetween(s);
    var s1 := PullOnce(s);
    SendPassMoves(s1);
    SendBetween(s1);
    assert forall r | r in s1.sendQ :: r.body.SendBody?;
    assert RecvPass(SendPass(s1)) == DoDrain(SendPass(s1));
  }

  /** The number of turns that n sends take when the window is open. */
  function TurnsFor(n: nat): nat {
    (n + 1023) / 1024
  }

  lemma {:induction false} OpenWindow(s: State)
    requires G.Reachable(s) && Between(s) && s.ops == [] && s.recvQ == [] && s.sendCount == 0
    ensures QueuesEmpty(After(s, TurnsFor(|s.sendQ|))) && After(s, TurnsFor(|s.sendQ|)).run == s.run
    decreases |s.sendQ|
  {
    hide G.Reachable, Between, FullTurn, Answered;
    if s.sendQ != [] {
      OnlySends(s);
      FullTurnDoes(s);
      assert TurnsFor(|s.sendQ|) == 1 + TurnsFor(|FullTurn(s).sendQ|);
      OpenWindow(FullTurn(s));
    }
  }

  /** When the transport has an answer for everything in progress, the worker
      gets out of its loop after a turn and as many more as the sends left
      over fill windows. */
  lemma WorkerGetsOut(s: State)
    requires G.Reachable(s) && Between(s) && Answered(s) && !s.run
    ensures var n := 1 + TurnsFor(Remaining(|s.sendQ|, 1024 - s.sendCount));
            Enabled(After(s, n), Exit)
  {
    hide G.Reachable, Between, FullTurn, Answered;
    var n := TurnsFor(Remaining(|s.sendQ|, 1024 - s.sendCount));
    FullTurnDoes(s);
    OpenWindow(FullTurn(s));
    assert After(s, 1 + n) == After(FullTurn(s), n);
    AfterBetween(FullTurn(s), n);
  }

  lemma {:induction false} AfterBetween(s: State, n: nat)
    requires Between(s)
    ensures !After(s, n).exited && After(s, n).batch == []
    decreases n
  {
    hide FullTurn;
    if n > 0 {
      FullBetween(s);
      AfterBetween(FullTurn(s), n - 1);
    }
  }
}
