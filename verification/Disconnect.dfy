/** The hand-off between the threads that use a session's socket and the one that tears it
    down. Loads, stores and compare-and-swaps of the shared fields are separate steps; the
    socket lock keeps a send or receive that has seen the session active, and a disconnect
    that has begun, apart. */
module Disconnect {

  datatype Life = ACTIVE | DISCONNECT_PENDING | DISCONNECTING

  /** Where a thread is. `Registering` has seen the session active under the shared lock and
      will count its I/O next; `Began` has stored DISCONNECT_PENDING and `SawNone` has also read
      a count of zero, both under the exclusive lock; `Completing` has passed the checks of a
      completion and `ReachedZero` has decremented the count to zero. */
  datatype Thread = Idle | Registering | Began | SawNone | Completing | ReachedZero

  /** One session. `pending` is its I/O count, `flight` the registered I/Os whose completion has
      not arrived; `registered` and `winners` record how often an I/O was registered and how
      often a call returned true. */
  datatype State = State(life: Life, pending: int, flight: nat, threads: seq<Thread>, registered: nat, winners: nat)

  datatype Step =
    | SeeActive        // SendPacket or RecvPacket, up to the check
    | Register
    | BeginDisconnect  // up to the store
    | LoadCount
    | SwapAfterLoad
    | Arrive           // a completion reaches CompleteIO and passes its checks
    | Decrement
    | SwapAfterDecrement
    | CompleteAtOnce   // Decrement and SwapAfterDecrement as one step

  predicate Locked(s: State) {
    exists t :: 0 <= t < |s.threads| && (s.threads[t].Began? || s.threads[t].SawNone?)
  }

  predicate SharedLocked(s: State) {
    exists t :: 0 <= t < |s.threads| && s.threads[t].Registering?
  }

  predicate CanStep(s: State, t: nat, step: Step) {
    && t < |s.threads|
    && match step
       case SeeActive => s.threads[t].Idle? && s.life.ACTIVE? && !Locked(s)
       case Register => s.threads[t].Registering?
       case BeginDisconnect => s.threads[t].Idle? && s.life.ACTIVE? && !Locked(s) && !SharedLocked(s)
       case LoadCount => s.threads[t].Began?
       case SwapAfterLoad => s.threads[t].SawNone?
       case Arrive => s.threads[t].Idle? && s.flight > 0
       case Decrement => s.threads[t].Completing?
       case SwapAfterDecrement => s.threads[t].ReachedZero?
       case CompleteAtOnce => s.threads[t].Completing?
  }

  function Moved(s: State, t: nat, thread: Thread): State
    requires t < |s.threads|
  {
    s.(threads := s.threads[t := thread])
  }

  /** The compare-and-swap both callers end with; its success is the call's `true`. */
  function Swapped(s: State): State {
    if s.life.DISCONNECT_PENDING? then s.(life := DISCONNECTING, winners := s.winners + 1) else s
  }

  function Next(s: State, t: nat, step: Step): State
    requires CanStep(s, t, step)
  {
    match step
    case SeeActive => Moved(s, t, Registering)
    case Register => Moved(s, t, Idle).(pending := s.pending + 1, flight := s.flight + 1, registered := s.registered + 1)
    case BeginDisconnect => Moved(s, t, Began).(life := DISCONNECT_PENDING)
    case LoadCount => Moved(s, t, if s.pending != 0 then Idle else SawNone)
    case SwapAfterLoad => Swapped(Moved(s, t, Idle))
    case Arrive => Moved(s, t, Completing).(flight := s.flight - 1)
    case Decrement => Moved(s, t, if s.pending - 1 == 0 then ReachedZero else Idle).(pending := s.pending - 1)
    case SwapAfterDecrement => Swapped(Moved(s, t, Idle))
    case CompleteAtOnce =>
      var s' := Moved(s, t, Idle).(pending := s.pending - 1);
      if s'.pending == 0 then Swapped(s') else s'
  }

  function Run(s: State, steps: seq<(nat, Step)>): State
    decreases |steps|
  {
    if steps == [] then s
    else Run(if CanStep(s, steps[0].0, steps[0].1) then Next(s, steps[0].0, steps[0].1) else s, steps[1..])
  }

  /** A fresh session and some threads. */
  function Fresh(threads: nat): State {
    State(ACTIVE, 0, 0, seq(threads, _ => Idle), 0, 0)
  }

  // ---------- Counting ----------

  function Completers(threads: seq<Thread>): nat {
    if threads == [] then 0
    else Completers(threads[..|threads| - 1]) + if threads[|threads| - 1].Completing? then 1 else 0
  }

  lemma {:induction false} CompletersUpdate(threads: seq<Thread>, t: nat, thread: Thread)
    requires t < |threads|
    ensures Completers(threads[t := thread]) ==
              Completers(threads) - (if threads[t].Completing? then 1 else 0) + (if thread.Completing? then 1 else 0)
  {
    var n := |threads| - 1;
    var changed := threads[t := thread];
    if t == n {
      assert changed[..n] == threads[..n];
    } else {
      assert changed[..n] == threads[..n][t := thread];
      CompletersUpdate(threads[..n], t, thread);
    }
  }

  lemma {:induction false} NoCompleters(threads: seq<Thread>)
    requires forall t :: 0 <= t < |threads| ==> !threads[t].Completing?
    ensures Completers(threads) == 0
  {
    if threads != [] {
      NoCompleters(threads[..|threads| - 1]);
    }
  }

  // ---------- The invariant ----------

  /** Somebody will still try to finish the disconnect. */
  predicate WillSwap(t: Thread) {
    t.Began? || t.SawNone? || t.ReachedZero?
  }

  ghost predicate Inv(s: State) {
    && s.pending == s.flight + Completers(s.threads)
    && s.winners == (if s.life.DISCONNECTING? then 1 else 0)
    && (SharedLocked(s) ==> s.life.ACTIVE?)
    && (Locked(s) ==> !s.life.ACTIVE?)
    && (forall t :: 0 <= t < |s.threads| && s.threads[t].SawNone? ==> s.pending == 0)
    && (s.life.DISCONNECT_PENDING? && s.pending == 0 ==> exists t :: 0 <= t < |s.threads| && WillSwap(s.threads[t]))
  }

  lemma StepKeeps(s: State, t: nat, step: Step)
    requires Inv(s) && CanStep(s, t, step)
    ensures Inv(Next(s, t, step))
    ensures !s.life.ACTIVE? ==> Next(s, t, step).registered == s.registered && !Next(s, t, step).life.ACTIVE?
  {
    hide Completers;
    var s' := Next(s, t, step);
    CompletersUpdate(s.threads, t, s'.threads[t]);
    assert s'.threads == s.threads[t := s'.threads[t]];
    assert forall u :: 0 <= u < |s.threads| && u != t ==> s'.threads[u] == s.threads[u];
    if s.life.DISCONNECT_PENDING? && s.pending == 0 {
      var u :| 0 <= u < |s.threads| && WillSwap(s.threads[u]);
      assert s'.threads[t].ReachedZero? || u == t || WillSwap(s'.threads[u]);
    }
    assert s'.life.DISCONNECT_PENDING? && s'.pending == 0 ==> WillSwap(s'.threads[t]) || s.pending == 0;
  }

  lemma {:induction false} RunKeeps(s: State, steps: seq<(nat, Step)>)
    requires Inv(s)
    ensures Inv(Run(s, steps))
    ensures !s.life.ACTIVE? ==> Run(s, steps).registered == s.registered && !Run(s, steps).life.ACTIVE?
    decreases |steps|
  {
    hide Inv, Next, CanStep;
    if steps != [] {
      if CanStep(s, steps[0].0, steps[0].1) {
        StepKeeps(s, steps[0].0, steps[0].1);
        RunKeeps(Next(s, steps[0].0, steps[0].1), steps[1..]);
      } else {
        RunKeeps(s, steps[1..]);
      }
    }
  }

  lemma FreshIsFine(threads: nat)
    ensures Inv(Fresh(threads))
  {
    NoCompleters(Fresh(threads).threads);
  }

  /** From the moment a disconnect begins, in any interleaving, no I/O is registered. */
  lemma NothingRegisteredAfterBegin(threads: nat, before: seq<(nat, Step)>, after: seq<(nat, Step)>)
    requires !Run(Fresh(threads), before).life.ACTIVE?
    ensures Run(Run(Fresh(threads), before), after).registered == Run(Fresh(threads), before).registered
  {
    FreshIsFine(threads);
    RunKeeps(Fresh(threads), before);
    RunKeeps(Run(Fresh(threads), before), after);
  }

  predicate Quiet(s: State) {
    s.flight == 0 && forall t :: 0 <= t < |s.threads| ==> s.threads[t].Idle?
  }

  /** At most one call ever returns true; and once a disconnect has begun, all completions have
      arrived and all calls have returned, exactly one has, and no I/O is pending. */
  lemma ExactlyOneWinner(threads: nat, steps: seq<(nat, Step)>)
    ensures var s := Run(Fresh(threads), steps);
            && s.winners <= 1
            && (s.winners == 1 <==> s.life.DISCONNECTING?)
            && (!s.life.ACTIVE? && Quiet(s) ==> s.winners == 1 && s.pending == 0)
  {
    FreshIsFine(threads);
    RunKeeps(Fresh(threads), steps);
    var s := Run(Fresh(threads), steps);
    if Quiet(s) {
      NoCompleters(s.threads);
      assert forall t :: 0 <= t < |s.threads| ==> !WillSwap(s.threads[t]);
    }
  }

  /** A completion always finds a positive count, so its early return is never taken. */
  lemma CountCoversCompletions(s: State, t: nat)
    requires Inv(s) && t < |s.threads| && s.threads[t].Completing?
    ensures s.pending > 0
  {
    CompletersUpdate(s.threads, t, Idle);
  }

  // ---------- Is nothing pending when DISCONNECTING is reached? ----------

  predicate Hazard(s: State) {
    s.life.DISCONNECTING? && s.pending > 0
  }

  /** Some thread has counted down to zero and not yet swapped, and the count has risen again. */
  predicate StaleZero(s: State) {
    s.pending > 0 && exists t :: 0 <= t < |s.threads| && s.threads[t].ReachedZero?
  }

  /** Not always: a receive completes and counts down to zero; before its swap a send is
      registered while the session is still active; then the session is disconnected. The
      late swap wins with the send still pending. */
  lemma PendingNeedNotBeZero()
    ensures Hazard(Run(Fresh(3),
              [(0, SeeActive), (0, Register), (0, Arrive), (0, Decrement),
               (1, SeeActive), (1, Register),
               (2, BeginDisconnect), (2, LoadCount),
               (0, SwapAfterDecrement)]))
  {
    var s0 := Fresh(3);
    var s1 := Next(s0, 0, SeeActive);
    assert s1.threads[0].Registering?;
    var s2 := Next(s1, 0, Register);
    var s3 := Next(s2, 0, Arrive);
    var s4 := Next(s3, 0, Decrement);
    var s5 := Next(s4, 1, SeeActive);
    var s6 := Next(s5, 1, Register);
    var s7 := Next(s6, 2, BeginDisconnect);
    var s8 := Next(s7, 2, LoadCount);
    var s9 := Next(s8, 0, SwapAfterDecrement);
    assert Hazard(s9);
    var steps: seq<(nat, Step)> :=
      [(0, SeeActive), (0, Register), (0, Arrive), (0, Decrement), (1, SeeActive), (1, Register),
       (2, BeginDisconnect), (2, LoadCount), (0, SwapAfterDecrement)];
    assert Run(s9, []) == s9;
    assert Run(s8, steps[8..]) == s9;
    assert Run(s7, steps[7..]) == s9;
    assert Run(s6, steps[6..]) == s9;
    assert Run(s5, steps[5..]) == s9;
    assert Run(s4, steps[4..]) == s9;
    assert Run(s3, steps[3..]) == s9;
    assert Run(s2, steps[2..]) == s9;
    assert Run(s1, steps[1..]) == s9;
    assert steps[0..] == steps;
  }

  lemma NoStaleZeroStays(s: State, t: nat, step: Step)
    requires Inv(s) && CanStep(s, t, step) && !s.life.ACTIVE? && !StaleZero(s) && !Hazard(s)
    ensures !StaleZero(Next(s, t, step)) && !Hazard(Next(s, t, step))
  {
    hide Completers;
    var s' := Next(s, t, step);
    assert forall u :: 0 <= u < |s.threads| && u != t ==> s'.threads[u] == s.threads[u];
    if s.threads[t].Completing? {
      CountCoversCompletions(s, t);
    }
  }

  lemma {:induction false} NoStaleZeroNoHazard(s: State, steps: seq<(nat, Step)>)
    requires Inv(s) && !s.life.ACTIVE? && !StaleZero(s) && !Hazard(s)
    ensures !Hazard(Run(s, steps))
    decreases |steps|
  {
    hide Inv, Next, CanStep, StaleZero, Hazard;
    if steps != [] {
      if CanStep(s, steps[0].0, steps[0].1) {
        StepKeeps(s, steps[0].0, steps[0].1);
        NoStaleZeroStays(s, steps[0].0, steps[0].1);
        NoStaleZeroNoHazard(Next(s, steps[0].0, steps[0].1), steps[1..]);
      } else {
        NoStaleZeroNoHazard(s, steps[1..]);
      }
    }
  }

  lemma StaleZeroReachesHazard(s: State) returns (steps: seq<(nat, Step)>)
    requires s.life.DISCONNECT_PENDING? && StaleZero(s)
    ensures Hazard(Run(s, steps))
  {
    var t: nat :| t < |s.threads| && s.threads[t].ReachedZero?;
    var step := (t, SwapAfterDecrement);
    steps := [step];
    assert steps[0] == step && steps[1..] == [];
    assert CanStep(s, t, SwapAfterDecrement);
    assert Run(s, steps) == Run(Next(s, t, SwapAfterDecrement), []);
  }

  /** Exactly when: once a disconnect has begun, DISCONNECTING can be reached with I/O pending
      if and only if some thread stands between its decrement to zero and its swap while the
      count is positive. */
  lemma HazardExactly(s: State)
    requires Inv(s) && s.life.DISCONNECT_PENDING?
    ensures (exists steps :: Hazard(Run(s, steps))) <==> StaleZero(s)
  {
    hide Run, StaleZero, Inv;
    forall steps
      ensures !StaleZero(s) ==> !Hazard(Run(s, steps))
    {
      if !StaleZero(s) {
        NoStaleZeroNoHazard(s, steps);
      }
    }
    if StaleZero(s) {
      var steps := StaleZeroReachesHazard(s);
      assert Hazard(Run(s, steps));
    }
  }

  predicate Atomic(steps: seq<(nat, Step)>) {
    forall i :: 0 <= i < |steps| ==> !steps[i].1.Decrement?
  }

  predicate NoZeroInHand(s: State) {
    !Hazard(s) && forall t :: 0 <= t < |s.threads| ==> !s.threads[t].ReachedZero?
  }

  lemma AtomicStepKeeps(s: State, t: nat, step: Step)
    requires Inv(s) && CanStep(s, t, step) && !step.Decrement? && NoZeroInHand(s)
    ensures NoZeroInHand(Next(s, t, step))
  {
    hide Completers;
    var s' := Next(s, t, step);
    assert forall u :: 0 <= u < |s.threads| && u != t ==> s'.threads[u] == s.threads[u];
    assert step.Register? ==> SharedLocked(s);
  }

  lemma {:induction false} AtomicRunKeeps(s: State, steps: seq<(nat, Step)>)
    requires Inv(s) && Atomic(steps) && NoZeroInHand(s)
    ensures NoZeroInHand(Run(s, steps))
    decreases |steps|
  {
    hide Inv, Next, CanStep, NoZeroInHand;
    if steps != [] {
      assert !steps[0].1.Decrement? && Atomic(steps[1..]);
      if CanStep(s, steps[0].0, steps[0].1) {
        StepKeeps(s, steps[0].0, steps[0].1);
        AtomicStepKeeps(s, steps[0].0, steps[0].1);
        AtomicRunKeeps(Next(s, steps[0].0, steps[0].1), steps[1..]);
      } else {
        AtomicRunKeeps(s, steps[1..]);
      }
    }
  }

  /** With a completion's decrement and swap as one step, DISCONNECTING always means that no
      I/O is pending. */
  lemma AtomicCompletionLeavesNothing(threads: nat, steps: seq<(nat, Step)>)
    requires Atomic(steps)
    ensures var s := Run(Fresh(threads), steps);
            s.life.DISCONNECTING? ==> s.pending == 0 && s.flight == 0
  {
    FreshIsFine(threads);
    AtomicRunKeeps(Fresh(threads), steps);
    RunKeeps(Fresh(threads), steps);
  }
}
