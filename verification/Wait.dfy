/** clh_wait (clh.c:691-701) against CLH_COMPLETE_REQUEST (clh.c:139-145): any
    number of waiters on one request, and the worker that completes it. */
module Wait {

  /** A waiter: before the lock, holding it at the loop test, asleep in the
      condition wait, awake but without the lock, returned. */
  datatype Waiter = Outside | Testing | Asleep | Woken | Returned

  /** The completer: before the lock, holding it, holding it with `completed`
      set, holding it after the notification, gone. */
  datatype Completer = Idle | Entered | HasSet | HasNotified | Left

  datatype Holder = Nobody | HeldByWaiter(i: nat) | HeldByCompleter

  datatype State = State(waiters: seq<Waiter>, completer: Completer, holder: Holder, completed: bool)

  datatype Step =
    | Lock(i: nat)          // pthread_mutex_lock, first or again after waking
    | Test(i: nat)          // the loop condition: return, or sleep and release
    | Spurious(i: nat)      // a wake-up without a signal
    | Enter
    | Set
    | Notify(i: nat)        // wakes waiter i, if anyone sleeps
    | Leave

  predicate SomeoneSleeps(s: State) {
    exists i | 0 <= i < |s.waiters| :: s.waiters[i] == Asleep
  }

  predicate Enabled(s: State, step: Step) {
    match step
    case Lock(i) => i < |s.waiters| && s.waiters[i] in {Outside, Woken} && s.holder == Nobody
    case Test(i) => i < |s.waiters| && s.waiters[i] == Testing
    case Spurious(i) => i < |s.waiters| && s.waiters[i] == Asleep
    case Enter => s.completer == Idle && s.holder == Nobody
    case Set => s.completer == Entered
    case Notify(i) => s.completer == HasSet && (SomeoneSleeps(s) ==> i < |s.waiters| && s.waiters[i] == Asleep)
    case Leave => s.completer == HasNotified
  }

  function Apply(s: State, step: Step): State
    requires Enabled(s, step)
  {
    match step
    case Lock(i) => s.(waiters := s.waiters[i := Testing], holder := HeldByWaiter(i))
    case Test(i) => s.(waiters := s.waiters[i := if s.completed then Returned else Asleep], holder := Nobody)
    case Spurious(i) => s.(waiters := s.waiters[i := Woken])
    case Enter => s.(completer := Entered, holder := HeldByCompleter)
    case Set => s.(completer := HasSet, completed := true)
    case Notify(i) =>
      if SomeoneSleeps(s) then s.(completer := HasNotified, waiters := s.waiters[i := Woken])
      else s.(completer := HasNotified)
    case Leave => s.(completer := Left, holder := Nobody)
  }

  function Start(n: nat): State {
    State(seq(n, _ => Outside), Idle, Nobody, false)
  }

  predicate CanRun(s: State, steps: seq<Step>)
    decreases |steps|
  {
    steps != [] ==> Enabled(s, steps[0]) && CanRun(Apply(s, steps[0]), steps[1..])
  }

  function Run(s: State, steps: seq<Step>): State
    requires CanRun(s, steps)
    decreases |steps|
  {
    if steps == [] then s else Run(Apply(s, steps[0]), steps[1..])
  }

  /** Waiter i sleeps although the request is complete, and the notification
      is already behind the completer. */
  predicate Lost(s: State, i: nat) {
    i < |s.waiters| && s.waiters[i] == Asleep && s.completed && s.completer in {HasNotified, Left}
  }

  /** The lock is held by whoever is in the critical section; `completed` is
      what the completer's position says; a waiter returns only when it is set. */
  predicate Consistent(s: State) {
    && (forall i | 0 <= i < |s.waiters| :: s.waiters[i] == Testing <==> s.holder == HeldByWaiter(i))
    && (s.holder.HeldByWaiter? ==> s.holder.i < |s.waiters|)
    && (s.completer in {Entered, HasSet, HasNotified} <==> s.holder == HeldByCompleter)
    && (s.completed <==> s.completer in {HasSet, HasNotified, Left})
    && (forall i | 0 <= i < |s.waiters| :: s.waiters[i] == Returned ==> s.completed)
  }

  /** With one waiter, nobody sleeps once the notification has been sent. */
  predicate Heard(s: State) {
    |s.waiters| <= 1 && s.completer in {HasNotified, Left} ==> !SomeoneSleeps(s)
  }

  lemma StepKeeps(s: State, step: Step)
    requires Enabled(s, step) && Consistent(s) && Heard(s)
    ensures Consistent(Apply(s, step)) && Heard(Apply(s, step))
  {
  }

  lemma {:induction false} RunKeeps(s: State, steps: seq<Step>)
    requires CanRun(s, steps) && Consistent(s) && Heard(s)
    ensures Consistent(Run(s, steps)) && Heard(Run(s, steps)) && |Run(s, steps).waiters| == |s.waiters|
    decreases |steps|
  {
    if steps != [] {
      StepKeeps(s, steps[0]);
      RunKeeps(Apply(s, steps[0]), steps[1..]);
    }
  }

  /** What two waiters can do: both go to sleep, one is notified. */
  function TwoSleepers(): seq<Step> {
    [Lock(0), Test(0), Lock(1), Test(1), Enter, Set, Notify(0), Leave]
  }

  lemma SecondSleeperLost(n: nat)
    requires n >= 2
    ensures CanRun(Start(n), TwoSleepers()) && Lost(Run(Start(n), TwoSleepers()), 1)
  {
    var s0 := Start(n);
    var s1 := Apply(s0, Lock(0));
    var s2 := Apply(s1, Test(0));
    var s3 := Apply(s2, Lock(1));
    var s4 := Apply(s3, Test(1));
    var s5 := Apply(s4, Enter);
    var s6 := Apply(s5, Set);
    assert s6.waiters[0] == Asleep;
    var s7 := Apply(s6, Notify(0));
    var s8 := Apply(s7, Leave);
    var q := TwoSleepers();
    RunStep(s7, q[7..]); RunStep(s6, q[6..]); RunStep(s5, q[5..]); RunStep(s4, q[4..]);
    RunStep(s3, q[3..]); RunStep(s2, q[2..]); RunStep(s1, q[1..]); RunStep(s0, q);
  }

  lemma RunStep(s: State, steps: seq<Step>)
    requires steps != [] && Enabled(s, steps[0]) && CanRun(Apply(s, steps[0]), steps[1..])
    ensures CanRun(s, steps) && Run(s, steps) == Run(Apply(s, steps[0]), steps[1..])
  {
  }

  /** A wake-up can be lost if and only if two threads wait on one request. */
  lemma LostWakeUpExact(n: nat)
    ensures (exists steps, i: nat :: CanRun(Start(n), steps) && Lost(Run(Start(n), steps), i)) <==> n >= 2
  {
    hide CanRun, Run, Start, TwoSleepers, Lost;
    if n >= 2 {
      SecondSleeperLost(n);
      var i: nat := 1;
      assert CanRun(Start(n), TwoSleepers()) && Lost(Run(Start(n), TwoSleepers()), i);
    } else {
      forall steps, i: nat | CanRun(Start(n), steps)
        ensures !Lost(Run(Start(n), steps), i)
      {
        NeverLost(n, steps, i);
      }
    }
  }

  lemma NeverLost(n: nat, steps: seq<Step>, i: nat)
    requires n <= 1 && CanRun(Start(n), steps)
    ensures !Lost(Run(Start(n), steps), i)
  {
    RunKeeps(Start(n), steps);
  }

  /** A single waiter comes back: once the completer has left, at most two steps
      of the waiter's own take it out of clh_wait, and it never comes back early. */
  lemma SingleWaiterReturns(steps: seq<Step>)
    requires CanRun(Start(1), steps)
    ensures var s := Run(Start(1), steps);
            && |s.waiters| == 1
            && (s.waiters[0] == Returned ==> s.completed)
            && (s.completer == Left && s.waiters[0] in {Outside, Woken} ==>
                  && Enabled(s, Lock(0)) && Enabled(Apply(s, Lock(0)), Test(0))
                  && Apply(Apply(s, Lock(0)), Test(0)).waiters[0] == Returned)
            && (s.completer == Left && s.waiters[0] == Testing ==>
                  Enabled(s, Test(0)) && Apply(s, Test(0)).waiters[0] == Returned)
            && (s.completer == Left ==> s.waiters[0] != Asleep)
  {
    RunKeeps(Start(1), steps);
    var s := Run(Start(1), steps);
    assert s.completer == Left && s.waiters[0] == Asleep ==> SomeoneSleeps(s);
  }
}
