/** One session slot over all its occupants: what completions that are still under way when the
    slot is freed can do to the next occupant. As in `Disconnect`, loads, stores and
    compare-and-swaps of the shared fields are separate steps. */
module SlotReuse {
  import D = Disconnect

  datatype Life = NONE | ACTIVE | DISCONNECT_PENDING | DISCONNECTING

  /** Where a thread is. The first four are as in `Disconnect`. A completion of an I/O of the
      occupant `of` has passed its key check (`Checked`), has also seen a positive count
      (`Completing`), or has counted down to zero and not yet swapped (`ReachedZero`). */
  datatype Thread =
    | Idle
    | Registering
    | Began
    | SawNone
    | Checked(of: nat)
    | Completing(of: nat)
    | ReachedZero(of: nat)

  /** Whether the occupant is in a room, and whether it can be kicked there: the host of a room,
      and the player of a single-player room, cannot. */
  datatype Place = Outside | AsHost | AsPlayer

  /** `occupant` stands for the session id, `flight` holds for every I/O under way whose it is,
      and `won` for every call that returned true whose key it had: that is the key with which
      the disconnect is announced. `roomTold` says that a room has announced the occupant's
      disconnect on removing it. `astray` is kept for the proofs: by how much the count is
      short. */
  datatype Slot =
    Slot(life: Life, occupant: nat, pending: int, threads: seq<Thread>, flight: multiset<nat>, won: multiset<nat>, astray: int,
         place: Place, roomTold: bool)

  datatype Step =
    | SeeActive
    | Register
    | BeginDisconnect
    | LoadCount
    | SwapAfterLoad
    | Arrive(of: nat)  // a completion checks its key
    | SeeCount
    | Decrement
    | SwapAfterDecrement
    | EnterRoom(asHost: bool)
    | BecomeHost
    | LeaveRoom        // for the lobby, of the player's own accord or kicked
    | RoomRemoval      // CompleteRoomRemoval of a session that is being disconnected
    | Free             // FinalizeDisconnect
    | Occupy           // InitSession

  /** The thread is in `BeginDisconnect`, and holds the socket lock. */
  predicate HasLock(t: Thread) {
    t.Began? || t.SawNone?
  }

  predicate Locked(s: Slot) {
    exists t :: 0 <= t < |s.threads| && HasLock(s.threads[t])
  }

  predicate SharedLocked(s: Slot) {
    exists t :: 0 <= t < |s.threads| && s.threads[t].Registering?
  }

  /** The lobby has a disconnect task with the occupant's key. */
  predicate Announced(s: Slot) {
    s.occupant in s.won || s.roomTold
  }

  /** A room removes a player who is being disconnected when its host kicks the player, or when
      the lobby's disconnect task asks it to. */
  predicate MayRemove(s: Slot) {
    && (s.life.DISCONNECT_PENDING? || s.life.DISCONNECTING?)
    && (s.place.AsPlayer? || (s.place.AsHost? && s.life.DISCONNECTING? && Announced(s)))
  }

  predicate CanStep(s: Slot, t: nat, step: Step) {
    && t < |s.threads|
    && match step
       case SeeActive => s.threads[t].Idle? && s.life.ACTIVE? && !Locked(s)
       case Register => s.threads[t].Registering?
       case BeginDisconnect => s.threads[t].Idle? && s.life.ACTIVE? && !Locked(s) && !SharedLocked(s)
       case LoadCount => s.threads[t].Began?
       case SwapAfterLoad => s.threads[t].SawNone?
       case Arrive(of) => s.threads[t].Idle? && of in s.flight
       case SeeCount => s.threads[t].Checked?
       case Decrement => s.threads[t].Completing?
       case SwapAfterDecrement => s.threads[t].ReachedZero?
       case EnterRoom(_) => s.threads[t].Idle? && s.life.ACTIVE? && s.place.Outside?
       case BecomeHost => s.threads[t].Idle? && s.place.AsPlayer?
       case LeaveRoom => s.threads[t].Idle? && s.life.ACTIVE? && !s.place.Outside?
       case RoomRemoval => s.threads[t].Idle? && MayRemove(s)
       case Free => s.threads[t].Idle? && s.life.DISCONNECTING? && Announced(s) && s.place.Outside? && !Locked(s) && !SharedLocked(s)
       case Occupy => s.threads[t].Idle? && s.life.NONE?
  }

  function Moved(s: Slot, t: nat, thread: Thread): Slot
    requires t < |s.threads|
  {
    s.(threads := s.threads[t := thread])
  }

  /** The compare-and-swap of a call with the key of `of`. */
  function Swapped(s: Slot, of: nat): Slot {
    if s.life.DISCONNECT_PENDING? then s.(life := DISCONNECTING, won := s.won + multiset{of}) else s
  }

  predicate Holds(s: Slot, of: nat) {
    !s.life.NONE? && s.occupant == of
  }

  function Next(s: Slot, t: nat, step: Step): Slot
    requires CanStep(s, t, step)
  {
    match step
    case SeeActive => Moved(s, t, Registering)
    case Register => Moved(s, t, Idle).(pending := s.pending + 1, flight := s.flight + multiset{s.occupant})
    case BeginDisconnect => Moved(s, t, Began).(life := DISCONNECT_PENDING)
    case LoadCount => Moved(s, t, if s.pending != 0 then Idle else SawNone)
    case SwapAfterLoad => Swapped(Moved(s, t, Idle), s.occupant)
    case Arrive(of) => Moved(s, t, if Holds(s, of) then Checked(of) else Idle).(flight := s.flight - multiset{of})
    case SeeCount =>
      var of := s.threads[t].of;
      if s.pending <= 0 then Moved(s, t, Idle).(astray := s.astray - if of == s.occupant then 1 else 0)
      else Moved(s, t, Completing(of))
    case Decrement =>
      var of := s.threads[t].of;
      Moved(s, t, if s.pending - 1 == 0 then ReachedZero(of) else Idle)
        .(pending := s.pending - 1, astray := s.astray + if of == s.occupant then 0 else 1)
    case SwapAfterDecrement => Swapped(Moved(s, t, Idle), s.threads[t].of)
    case EnterRoom(asHost) => s.(place := if asHost then AsHost else AsPlayer)
    case BecomeHost => s.(place := AsHost)
    case LeaveRoom => s.(place := Outside)
    case RoomRemoval => s.(place := Outside, roomTold := s.roomTold || s.life.DISCONNECTING?)
    case Free => s.(life := NONE)
    case Occupy => s.(life := ACTIVE, occupant := s.occupant + 1, pending := 0, astray := 0, place := Outside, roomTold := false)
  }

  function Run(s: Slot, steps: seq<(nat, Step)>): Slot
    decreases |steps|
  {
    if steps == [] then s
    else Run(if CanStep(s, steps[0].0, steps[0].1) then Next(s, steps[0].0, steps[0].1) else s, steps[1..])
  }

  /** A slot that nobody has used, and some threads. */
  function Unused(threads: nat): Slot {
    Slot(NONE, 0, 0, seq(threads, _ => Idle), multiset{}, multiset{}, 0, Outside, false)
  }

  // ---------- Counting ----------

  /** The thread has a completion of this occupant in hand and has still to count it down. */
  predicate IsInHand(t: Thread, of: nat) {
    (t.Checked? || t.Completing?) && t.of == of
  }

  function InHand(threads: seq<Thread>, of: nat): nat {
    if threads == [] then 0
    else InHand(threads[..|threads| - 1], of) + if IsInHand(threads[|threads| - 1], of) then 1 else 0
  }

  lemma {:induction false} InHandUpdate(threads: seq<Thread>, t: nat, thread: Thread, of: nat)
    requires t < |threads|
    ensures InHand(threads[t := thread], of) ==
              InHand(threads, of) - (if IsInHand(threads[t], of) then 1 else 0) + (if IsInHand(thread, of) then 1 else 0)
  {
    var n := |threads| - 1;
    var changed := threads[t := thread];
    if t == n {
      assert changed[..n] == threads[..n];
    } else {
      assert changed[..n] == threads[..n][t := thread];
      InHandUpdate(threads[..n], t, thread, of);
    }
  }

  lemma {:induction false} NobodyInHand(threads: seq<Thread>, of: nat)
    requires forall t :: 0 <= t < |threads| ==> !IsInHand(threads[t], of)
    ensures InHand(threads, of) == 0
  {
    if threads != [] {
      NobodyInHand(threads[..|threads| - 1], of);
    }
  }

  // ---------- The invariant ----------

  /** Whose completion a thread has past its key check. */
  predicate Carrying(t: Thread) {
    t.Checked? || t.Completing? || t.ReachedZero?
  }

  /** The thread's completion is of an earlier occupant. */
  predicate IsStraggler(s: Slot, t: nat)
    requires t < |s.threads|
  {
    Carrying(s.threads[t]) && s.threads[t].of != s.occupant
  }

  /** The count is what is under way or in hand, less what went astray. */
  predicate Counted(s: Slot) {
    !s.life.NONE? ==> s.astray >= 0 && s.pending + s.astray == s.flight[s.occupant] + InHand(s.threads, s.occupant)
  }

  ghost predicate LocksOk(s: Slot) {
    && (SharedLocked(s) ==> s.life.ACTIVE?)
    && (Locked(s) ==> s.life.DISCONNECT_PENDING? || s.life.DISCONNECTING?)
    && (forall t :: 0 <= t < |s.threads| && s.threads[t].SawNone? ==> s.pending <= 0)
    && (forall t, u :: 0 <= t < |s.threads| && 0 <= u < |s.threads| && HasLock(s.threads[t]) && HasLock(s.threads[u]) ==> t == u)
    && (!s.life.NONE? ==> s.threads != [])
  }

  ghost predicate NoneFromTheFuture(s: Slot) {
    && (forall of :: of in s.flight || of in s.won ==> of <= s.occupant)
    && (forall t :: 0 <= t < |s.threads| && Carrying(s.threads[t]) ==> s.threads[t].of <= s.occupant)
  }

  ghost predicate Inv(s: Slot) {
    Counted(s) && LocksOk(s) && NoneFromTheFuture(s)
  }

  lemma OnlyOneMoves(s: Slot, t: nat, step: Step)
    requires CanStep(s, t, step)
    ensures var s' := Next(s, t, step);
            && s'.threads == s.threads[t := s'.threads[t]]
            && forall u :: 0 <= u < |s.threads| && u != t ==> s'.threads[u] == s.threads[u]
  {
  }

  lemma StepCounts(s: Slot, t: nat, step: Step)
    requires Inv(s) && CanStep(s, t, step)
    ensures Counted(Next(s, t, step))
  {
    if step.Occupy? {
      OccupyCounts(s, t);
    } else {
      MovingCounts(s, t, step);
    }
  }

  lemma OccupyCounts(s: Slot, t: nat)
    requires NoneFromTheFuture(s) && CanStep(s, t, Occupy)
    ensures Counted(Next(s, t, Occupy))
  {
    hide InHand, Locked, SharedLocked, MayRemove, Announced;
    NobodyInHand(s.threads, s.occupant + 1);
    assert s.occupant + 1 !in s.flight;
  }

  lemma MovingCounts(s: Slot, t: nat, step: Step)
    requires Counted(s) && CanStep(s, t, step) && !step.Occupy?
    ensures Counted(Next(s, t, step))
  {
    hide InHand, Locked, SharedLocked, MayRemove, Announced;
    var s' := Next(s, t, step);
    InHandUpdate(s.threads, t, s'.threads[t], s.occupant);
    OnlyOneMoves(s, t, step);
  }

  lemma StepLocks(s: Slot, t: nat, step: Step)
    requires LocksOk(s) && CanStep(s, t, step)
    ensures LocksOk(Next(s, t, step))
  {
    OnlyOneMoves(s, t, step);
    hide MayRemove, Announced;
    if step.SeeActive? || step.Register? || step.BeginDisconnect? || step.LoadCount? || step.SwapAfterLoad? || step.Free? {
      LockingStepLocks(s, t, step);
    }
  }

  lemma LockingStepLocks(s: Slot, t: nat, step: Step)
    requires LocksOk(s) && CanStep(s, t, step)
    requires step.SeeActive? || step.Register? || step.BeginDisconnect? || step.LoadCount? || step.SwapAfterLoad? || step.Free?
    ensures LocksOk(Next(s, t, step))
  {
    OnlyOneMoves(s, t, step);
    hide MayRemove, Announced;
  }

  lemma StepAges(s: Slot, t: nat, step: Step)
    requires NoneFromTheFuture(s) && CanStep(s, t, step)
    ensures NoneFromTheFuture(Next(s, t, step))
  {
    hide Locked, SharedLocked, MayRemove, Announced;
    OnlyOneMoves(s, t, step);
    var s' := Next(s, t, step);
    forall of | of in s'.flight || of in s'.won
      ensures of <= s'.occupant
    {
      assert of in s.flight || of in s.won || of == s.occupant || (Carrying(s.threads[t]) && of == s.threads[t].of);
    }
  }

  lemma StepKeeps(s: Slot, t: nat, step: Step)
    requires Inv(s) && CanStep(s, t, step)
    ensures Inv(Next(s, t, step))
  {
    StepCounts(s, t, step);
    StepLocks(s, t, step);
    StepAges(s, t, step);
  }

  lemma {:induction false} RunKeeps(s: Slot, steps: seq<(nat, Step)>)
    requires Inv(s)
    ensures Inv(Run(s, steps))
    decreases |steps|
  {
    hide Inv, Next, CanStep;
    if steps != [] {
      if CanStep(s, steps[0].0, steps[0].1) {
        StepKeeps(s, steps[0].0, steps[0].1);
      }
      RunKeeps(if CanStep(s, steps[0].0, steps[0].1) then Next(s, steps[0].0, steps[0].1) else s, steps[1..]);
    }
  }

  /** In every reachable state of a slot in use the count is the I/O of its occupant that is under
      way or in hand, or it is short. */
  lemma CountIsNeverTooHigh(threads: nat, steps: seq<(nat, Step)>)
    ensures var s := Run(Unused(threads), steps);
            !s.life.NONE? ==> s.pending <= s.flight[s.occupant] + InHand(s.threads, s.occupant)
  {
    RunKeeps(Unused(threads), steps);
  }

  /** A disconnect is announced, by a call or by a room, only when it is due. */
  predicate AnnouncedInTime(s: Slot) {
    s.life.ACTIVE? || s.life.DISCONNECT_PENDING? ==> !Announced(s)
  }

  lemma StepAnnounces(s: Slot, t: nat, step: Step)
    requires NoneFromTheFuture(s) && CanStep(s, t, step) && AnnouncedInTime(s)
    ensures AnnouncedInTime(Next(s, t, step))
    ensures s.life.DISCONNECTING? && step.RoomRemoval? ==> Announced(Next(s, t, step))
  {
    hide Locked, SharedLocked;
  }

  /** Whatever late completions do: as long as an occupant is active or waits for its I/O, nobody has
      announced its disconnect. */
  lemma {:induction false} NeverAnnouncedEarly(s: Slot, steps: seq<(nat, Step)>)
    requires Inv(s) && AnnouncedInTime(s)
    ensures AnnouncedInTime(Run(s, steps))
    decreases |steps|
  {
    hide Inv, Next, CanStep, AnnouncedInTime;
    if steps != [] {
      var (t, step) := steps[0];
      if CanStep(s, t, step) {
        StepKeeps(s, t, step);
        AgesOf(s);
        StepAnnounces(s, t, step);
        NeverAnnouncedEarly(Next(s, t, step), steps[1..]);
      } else {
        NeverAnnouncedEarly(s, steps[1..]);
      }
    }
  }

  lemma AgesOf(s: Slot)
    requires Inv(s)
    ensures NoneFromTheFuture(s)
  {
  }

  // ---------- What a late completion does ----------

  /** A step of a completion of an earlier occupant's I/O. */
  predicate IsLate(s: Slot, t: nat, step: Step)
    requires CanStep(s, t, step)
  {
    match step
    case Arrive(of) => !Holds(s, of)
    case SeeCount => IsStraggler(s, t)
    case Decrement => IsStraggler(s, t)
    case SwapAfterDecrement => IsStraggler(s, t)
    case _ => false
  }

  /** One that arrives after the slot was freed changes nothing; one that was past its key check
      by then changes the next occupant exactly when it counts down, or swaps while that
      occupant waits for its own I/O. */
  lemma LateStepChangesExactly(s: Slot, t: nat, step: Step)
    requires CanStep(s, t, step) && IsLate(s, t, step)
    ensures var s' := Next(s, t, step);
            && s'.occupant == s.occupant
            && (s'.pending != s.pending <==> step.Decrement?)
            && (s'.life != s.life <==> step.SwapAfterDecrement? && s.life.DISCONNECT_PENDING?)
            && s'.won == (if s'.life != s.life then s.won + multiset{s.threads[t].of} else s.won)
            && (step.Arrive? ==> s'.threads[t].Idle?)
  {
  }

  /** No completion of an earlier occupant is past its key check. */
  predicate Clean(s: Slot) {
    forall t :: 0 <= t < |s.threads| ==> !IsStraggler(s, t)
  }

  predicate NothingCarried(s: Slot) {
    forall t :: 0 <= t < |s.threads| ==> !Carrying(s.threads[t])
  }

  /** Stragglers come about in one way only: the slot is taken while some completion is past its
      key check. */
  lemma StragglersComeFromReuse(s: Slot, t: nat, step: Step)
    requires Inv(s) && CanStep(s, t, step) && Clean(s)
    ensures Clean(Next(s, t, step)) <==> !step.Occupy? || NothingCarried(s)
    ensures (!s.life.NONE? ==> s.astray == 0) && !Next(s, t, step).life.NONE? ==> Next(s, t, step).astray == 0
  {
    WhoStraggles(s, t, step);
    NothingGoesAstray(s, t, step);
  }

  lemma WhoStraggles(s: Slot, t: nat, step: Step)
    requires NoneFromTheFuture(s) && CanStep(s, t, step) && Clean(s)
    ensures Clean(Next(s, t, step)) <==> !step.Occupy? || NothingCarried(s)
  {
    hide Locked, SharedLocked, InHand, MayRemove, Announced;
    OnlyOneMoves(s, t, step);
    assert !IsStraggler(s, t);
    var s' := Next(s, t, step);
    if !step.Occupy? || NothingCarried(s) {
      forall u | 0 <= u < |s'.threads|
        ensures !IsStraggler(s', u)
      {
        assert !IsStraggler(s, u) && (u != t ==> s'.threads[u] == s.threads[u]);
      }
    } else {
      var u :| 0 <= u < |s.threads| && Carrying(s.threads[u]);
      assert IsStraggler(s', u);
    }
  }

  lemma NothingGoesAstray(s: Slot, t: nat, step: Step)
    requires Counted(s) && CanStep(s, t, step) && Clean(s)
    ensures (!s.life.NONE? ==> s.astray == 0) && !Next(s, t, step).life.NONE? ==> Next(s, t, step).astray == 0
  {
    hide Locked, SharedLocked, InHand, MayRemove, Announced;
    assert !IsStraggler(s, t);
    if step.SeeCount? && IsInHand(s.threads[t], s.occupant) {
      SomebodyInHand(s.threads, t, s.occupant);
    }
  }

  lemma SomebodyInHand(threads: seq<Thread>, t: nat, of: nat)
    requires t < |threads| && IsInHand(threads[t], of)
    ensures InHand(threads, of) > 0
  {
    InHandUpdate(threads, t, Idle, of);
  }

  /** Every time the slot is taken, no completion is past its key check. */
  predicate ReusedCleanly(s: Slot, steps: seq<(nat, Step)>)
    decreases |steps|
  {
    steps == [] ||
    var (t, step) := steps[0];
    if CanStep(s, t, step) then (step.Occupy? ==> NothingCarried(s)) && ReusedCleanly(Next(s, t, step), steps[1..])
    else ReusedCleanly(s, steps[1..])
  }

  /** The call will still try to finish the disconnect. */
  predicate WillSwap(t: Thread) {
    HasLock(t) || t.ReachedZero?
  }

  /** What holds of an occupant that nobody disturbs: the count is exact; exactly one call returns
      true for its disconnect, with its own key, and only when it is due; and until then there
      is I/O to wait for, or a call that will still swap. */
  predicate Exact(s: Slot) {
    && Clean(s)
    && (!s.life.NONE? ==> s.astray == 0 && s.won[s.occupant] == if s.life.DISCONNECTING? then 1 else 0)
    && (s.life.DISCONNECT_PENDING? && s.pending <= 0 ==> exists t :: 0 <= t < |s.threads| && WillSwap(s.threads[t]))
  }

  lemma StepExact(s: Slot, t: nat, step: Step)
    requires Inv(s) && Exact(s) && CanStep(s, t, step) && (step.Occupy? ==> NothingCarried(s))
    ensures Exact(Next(s, t, step))
  {
    StragglersComeFromReuse(s, t, step);
    assert !IsStraggler(s, t);
    OnlyOneMoves(s, t, step);
    if IsInHand(s.threads[t], s.occupant) {
      SomebodyInHand(s.threads, t, s.occupant);
    }
    hide Locked, SharedLocked, InHand, Clean;
    var s' := Next(s, t, step);
    if s.life.DISCONNECT_PENDING? && s.pending <= 0 {
      var u :| 0 <= u < |s.threads| && WillSwap(s.threads[u]);
      assert u == t || WillSwap(s'.threads[u]);
    }
    assert s'.life.DISCONNECT_PENDING? && s'.pending <= 0 ==> WillSwap(s'.threads[t]) || s.pending <= 0;
  }

  lemma {:induction false} CleanRunKeeps(s: Slot, steps: seq<(nat, Step)>)
    requires Inv(s) && Exact(s) && ReusedCleanly(s, steps)
    ensures Inv(Run(s, steps)) && Exact(Run(s, steps))
    decreases |steps|
  {
    hide Inv, Exact, NothingCarried, CanStep, Next;
    if steps != [] {
      var (t, step) := steps[0];
      if CanStep(s, t, step) {
        StepKeeps(s, t, step);
        StepExact(s, t, step);
        CleanRunKeeps(Next(s, t, step), steps[1..]);
      } else {
        CleanRunKeeps(s, steps[1..]);
      }
    }
  }

  /** Then the count of every occupant is exact, no step is ever late, exactly one call returns
      true for every disconnect that is due, with the occupant's own key, and none before; and
      an occupant that still waits has I/O to wait for, or a call that will still swap. */
  lemma CleanReuseIsSafe(threads: nat, steps: seq<(nat, Step)>)
    requires ReusedCleanly(Unused(threads), steps)
    ensures var s := Run(Unused(threads), steps);
            && Clean(s)
            && (!s.life.NONE? ==>
                  && s.pending == s.flight[s.occupant] + InHand(s.threads, s.occupant)
                  && s.won[s.occupant] == if s.life.DISCONNECTING? then 1 else 0)
            && (s.life.DISCONNECT_PENDING? ==> s.pending > 0 || exists t :: 0 <= t < |s.threads| && WillSwap(s.threads[t]))
  {
    CleanRunKeeps(Unused(threads), steps);
  }

  // ---------- One occupant ----------

  function ThreadOf(t: Thread): D.Thread {
    match t
    case Idle => D.Idle
    case Registering => D.Registering
    case Began => D.Began
    case SawNone => D.SawNone
    case Checked(_) => D.Completing
    case Completing(_) => D.Completing
    case ReachedZero(_) => D.ReachedZero
  }

  /** The slot as `Disconnect` sees its present occupant. */
  function AsOne(s: Slot): (d: D.State)
    ensures |d.threads| == |s.threads| && forall t :: 0 <= t < |s.threads| ==> d.threads[t] == ThreadOf(s.threads[t])
  {
    D.State(if s.life.ACTIVE? then D.ACTIVE else if s.life.DISCONNECT_PENDING? then D.DISCONNECT_PENDING else D.DISCONNECTING,
            s.pending, s.flight[s.occupant], seq(|s.threads|, (t: int) requires 0 <= t < |s.threads| => ThreadOf(s.threads[t])),
            0, s.won[s.occupant])
  }

  /** The step of `Disconnect` that a step is; none for one that does not concern the occupant. */
  function StepOf(s: Slot, step: Step): Option<D.Step> {
    match step
    case SeeActive => Some(D.SeeActive)
    case Register => Some(D.Register)
    case BeginDisconnect => Some(D.BeginDisconnect)
    case LoadCount => Some(D.LoadCount)
    case SwapAfterLoad => Some(D.SwapAfterLoad)
    case Arrive(of) => if of == s.occupant then Some(D.Arrive) else None
    case Decrement => Some(D.Decrement)
    case SwapAfterDecrement => Some(D.SwapAfterDecrement)
    case _ => None
  }

  datatype Option<T> = None | Some(value: T)

  /** A step seen as one of `Disconnect`'s. */
  predicate IsAsOne(s: Slot, t: nat, step: Step)
    requires CanStep(s, t, step)
  {
    match StepOf(s, step)
    case None => AsOne(Next(s, t, step)) == AsOne(s)
    case Some(one) => D.CanStep(AsOne(s), t, one) && AsOne(Next(s, t, step)) == D.Next(AsOne(s), t, one).(registered := 0)
  }

  lemma ThreadsAsOne(s: Slot, t: nat, step: Step)
    requires CanStep(s, t, step)
    ensures AsOne(Next(s, t, step)).threads == AsOne(s).threads[t := ThreadOf(Next(s, t, step).threads[t])]
    ensures AsOne(s).threads[t := AsOne(s).threads[t]] == AsOne(s).threads
  {
    OnlyOneMoves(s, t, step);
  }

  lemma BeginningAsOne(s: Slot, t: nat, step: Step)
    requires Exact(s) && !s.life.NONE? && CanStep(s, t, step)
    requires step.SeeActive? || step.Register? || step.BeginDisconnect? || step.LoadCount? || step.SwapAfterLoad?
    ensures IsAsOne(s, t, step)
  {
    LocksAsOne(s);
    ThreadsAsOne(s, t, step);
    hide Clean, Locked, SharedLocked, D.Locked, D.SharedLocked;
  }

  lemma ArrivingAsOne(s: Slot, t: nat, of: nat)
    requires !s.life.NONE? && CanStep(s, t, Arrive(of))
    ensures IsAsOne(s, t, Arrive(of))
  {
    ThreadsAsOne(s, t, Arrive(of));
    hide Locked, SharedLocked, D.Locked, D.SharedLocked;
  }

  lemma CompletingAsOne(s: Slot, t: nat, step: Step)
    requires Inv(s) && Exact(s) && !s.life.NONE? && CanStep(s, t, step)
    requires step.SeeCount? || step.Decrement? || step.SwapAfterDecrement?
    ensures IsAsOne(s, t, step)
  {
    assert !IsStraggler(s, t);
    assert s.astray == 0;
    if IsInHand(s.threads[t], s.occupant) {
      SomebodyInHand(s.threads, t, s.occupant);
      assert s.pending > 0;
    }
    ThreadsAsOne(s, t, step);
    hide InHand, Exact, Clean, Inv, Locked, SharedLocked, D.Locked, D.SharedLocked, MayRemove, Announced;
  }

  /** While nobody is late, an occupant goes through exactly the steps of `Disconnect`, so all that
      is proved there holds of every occupant of a slot that is reused cleanly. */
  lemma OccupantIsAsOne(s: Slot, t: nat, step: Step)
    requires Inv(s) && Exact(s) && !s.life.NONE? && CanStep(s, t, step) && !step.Free? && !step.Occupy?
    ensures IsAsOne(s, t, step)
  {
    if step.Arrive? {
      ArrivingAsOne(s, t, step.of);
    } else if step.SeeCount? || step.Decrement? || step.SwapAfterDecrement? {
      CompletingAsOne(s, t, step);
    } else if step.SeeActive? || step.Register? || step.BeginDisconnect? || step.LoadCount? || step.SwapAfterLoad? {
      BeginningAsOne(s, t, step);
    } else {
      ThreadsAsOne(s, t, step);
    }
  }

  lemma LocksAsOne(s: Slot)
    ensures D.Locked(AsOne(s)) == Locked(s) && D.SharedLocked(AsOne(s)) == SharedLocked(s)
  {
    var d := AsOne(s);
    assert forall t :: 0 <= t < |s.threads| ==>
             ((d.threads[t].Began? || d.threads[t].SawNone?) <==> HasLock(s.threads[t])) &&
             (d.threads[t].Registering? <==> s.threads[t].Registering?);
  }

  // ---------- When a slot is freed with a completion past its key check ----------

  /** The slot of the occupant `of` has been freed, and some thread is past the key check of a
      completion of `of`. */
  predicate Caught(s: Slot, of: nat) {
    s.occupant == of && s.life.NONE? && exists t :: 0 <= t < |s.threads| && Carrying(s.threads[t]) && s.threads[t].of == of
  }

  /** Some call has still to swap, and I/O is pending or another completion has counted down to
      zero. */
  predicate Risky(s: Slot) {
    exists t :: 0 <= t < |s.threads| && WillSwap(s.threads[t]) &&
      (s.pending > 0 || exists u :: 0 <= u < |s.threads| && u != t && s.threads[u].ReachedZero?)
  }

  /** The occupant `of` will not be caught. */
  ghost predicate OutOfReach(s: Slot, of: nat) {
    || s.occupant > of
    || (s.occupant == of && s.life.NONE? && !Caught(s, of))
    || (s.occupant == of && !s.life.NONE? && |s.threads| < 2)
    || (s.occupant == of && Clean(s) && s.astray == 0 && s.life.DISCONNECT_PENDING? && !Risky(s))
    || (s.occupant == of && Clean(s) && s.astray == 0 && s.life.DISCONNECTING? && s.pending == 0 && NothingCarried(s))
  }

  /** Waiting, and not at risk: a swap leaves nothing behind. */
  lemma WaitingStays(s: Slot, t: nat, step: Step)
    requires Inv(s) && Clean(s) && s.astray == 0 && s.life.DISCONNECT_PENDING? && !Risky(s) && CanStep(s, t, step)
    ensures OutOfReach(Next(s, t, step), s.occupant)
  {
    var s' := Next(s, t, step);
    StragglersComeFromReuse(s, t, step);
    OnlyOneMoves(s, t, step);
    if s'.life.DISCONNECTING? {
      SwapSettles(s, t, step);
    } else {
      WaitingIsNotRisky(s, t, step);
    }
  }

  lemma NotRisky(s: Slot, t: nat)
    requires !Risky(s) && t < |s.threads| && WillSwap(s.threads[t])
    ensures s.pending <= 0 && forall u :: 0 <= u < |s.threads| && u != t ==> !s.threads[u].ReachedZero?
  {
  }

  lemma SwapSettles(s: Slot, t: nat, step: Step)
    requires Inv(s) && Clean(s) && s.astray == 0 && s.life.DISCONNECT_PENDING? && !Risky(s) && CanStep(s, t, step)
    requires Next(s, t, step).life.DISCONNECTING?
    ensures Next(s, t, step).pending == 0 && NothingCarried(Next(s, t, step))
  {
    assert WillSwap(s.threads[t]);
    NotRisky(s, t);
    OnlyOneMoves(s, t, step);
    forall u | 0 <= u < |s.threads| && u != t
      ensures !Carrying(s.threads[u])
    {
      assert !IsStraggler(s, u);
      if IsInHand(s.threads[u], s.occupant) {
        SomebodyInHand(s.threads, u, s.occupant);
      }
    }
    hide InHand, Locked, SharedLocked, Clean, Risky;
  }

  lemma WaitingIsNotRisky(s: Slot, t: nat, step: Step)
    requires Inv(s) && Clean(s) && s.astray == 0 && s.life.DISCONNECT_PENDING? && !Risky(s) && CanStep(s, t, step)
    requires Next(s, t, step).life.DISCONNECT_PENDING?
    ensures !Risky(Next(s, t, step))
  {
    OnlyOneMoves(s, t, step);
    var s' := Next(s, t, step);
    assert !IsStraggler(s, t);
    if IsInHand(s.threads[t], s.occupant) {
      SomebodyInHand(s.threads, t, s.occupant);
    }
    hide InHand, Locked, SharedLocked, Clean, MayRemove, Announced, NoneFromTheFuture;
  }

  lemma SettledStays(s: Slot, t: nat, step: Step)
    requires Inv(s) && Clean(s) && s.astray == 0 && s.life.DISCONNECTING? && s.pending == 0 && NothingCarried(s) && CanStep(s, t, step)
    ensures OutOfReach(Next(s, t, step), s.occupant)
  {
    StragglersComeFromReuse(s, t, step);
    OnlyOneMoves(s, t, step);
    hide InHand, Locked, SharedLocked, Clean;
  }

  lemma AloneStays(s: Slot, t: nat, step: Step)
    requires !s.life.NONE? && |s.threads| < 2 && CanStep(s, t, step)
    ensures OutOfReach(Next(s, t, step), s.occupant)
  {
    OnlyOneMoves(s, t, step);
    hide Locked, SharedLocked;
  }

  lemma FreeStays(s: Slot, of: nat, t: nat, step: Step)
    requires s.occupant == of && s.life.NONE? && !Caught(s, of) && LocksOk(s) && CanStep(s, t, step)
    ensures OutOfReach(Next(s, t, step), of)
  {
    OnlyOneMoves(s, t, step);
  }

  lemma OutOfReachStays(s: Slot, of: nat, t: nat, step: Step)
    requires Inv(s) && OutOfReach(s, of) && CanStep(s, t, step)
    ensures OutOfReach(Next(s, t, step), of)
  {
    if s.occupant > of {
      assert Next(s, t, step).occupant >= s.occupant;
    } else if s.life.NONE? {
      FreeStays(s, of, t, step);
    } else if |s.threads| < 2 {
      AloneStays(s, t, step);
    } else if s.life.DISCONNECT_PENDING? {
      WaitingStays(s, t, step);
    } else {
      SettledStays(s, t, step);
    }
  }

  lemma {:induction false} NeverCaught(s: Slot, of: nat, steps: seq<(nat, Step)>)
    requires Inv(s) && OutOfReach(s, of)
    ensures !Caught(Run(s, steps), of)
    decreases |steps|
  {
    hide Inv, OutOfReach, CanStep, Next, Caught;
    if steps == [] {
      OutOfReachIsNotCaught(s, of);
    } else {
      if CanStep(s, steps[0].0, steps[0].1) {
        StepKeeps(s, steps[0].0, steps[0].1);
        OutOfReachStays(s, of, steps[0].0, steps[0].1);
      }
      NeverCaught(if CanStep(s, steps[0].0, steps[0].1) then Next(s, steps[0].0, steps[0].1) else s, of, steps[1..]);
    }
  }

  lemma OutOfReachIsNotCaught(s: Slot, of: nat)
    requires OutOfReach(s, of)
    ensures !Caught(s, of)
  {
  }

  // ---------- Bringing runs together ----------

  lemma OneStep(s: Slot, t: nat, step: Step) returns (steps: seq<(nat, Step)>)
    requires CanStep(s, t, step)
    ensures Run(s, steps) == Next(s, t, step)
  {
    steps := [(t, step)];
    var s' := Next(s, t, step);
    assert steps[0] == (t, step) && steps[1..] == [] && Run(s', []) == s';
  }

  lemma {:induction false} RunAppend(s: Slot, a: seq<(nat, Step)>, b: seq<(nat, Step)>)
    ensures Run(s, a + b) == Run(Run(s, a), b)
    decreases |a|
  {
    hide CanStep, Next;
    if a == [] {
      assert a + b == b;
    } else {
      assert (a + b)[0] == a[0] && (a + b)[1..] == a[1..] + b;
      RunAppend(if CanStep(s, a[0].0, a[0].1) then Next(s, a[0].0, a[0].1) else s, a[1..], b);
    }
  }

  lemma ThenOneStep(s: Slot, before: seq<(nat, Step)>, t: nat, step: Step) returns (steps: seq<(nat, Step)>)
    requires CanStep(Run(s, before), t, step)
    ensures Run(s, steps) == Next(Run(s, before), t, step)
  {
    var last := OneStep(Run(s, before), t, step);
    RunAppend(s, before, last);
    steps := before + last;
  }

  /** The disconnect is complete as far as the count goes; only locks and threads have moved on. */
  ghost predicate StillDisconnecting(s: Slot, s': Slot) {
    && Inv(s') && s'.life.DISCONNECTING? && s'.occupant == s.occupant && |s'.threads| == |s.threads|
    && s'.place == s.place && s'.won == s.won && s'.roomTold == s.roomTold
  }

  /** Only locks have been let go of. */
  ghost predicate Unlocked(s: Slot, s': Slot) {
    && StillDisconnecting(s, s') && s'.flight == s.flight && s'.pending == s.pending && s'.astray == s.astray
    && forall t :: 0 <= t < |s.threads| ==> s'.threads[t] == if HasLock(s.threads[t]) then Idle else s.threads[t]
  }

  lemma SwapUnlocks(s: Slot, t: nat)
    requires Inv(s) && s.life.DISCONNECTING? && t < |s.threads| && s.threads[t].SawNone?
    ensures Unlocked(s, Next(s, t, SwapAfterLoad))
  {
    StepKeeps(s, t, SwapAfterLoad);
    OnlyOneMoves(s, t, SwapAfterLoad);
    hide InHand, Counted, NoneFromTheFuture, SharedLocked, Locked;
  }

  lemma LoadUnlocks(s: Slot, t: nat)
    requires Inv(s) && s.life.DISCONNECTING? && t < |s.threads| && s.threads[t].Began?
    ensures var s' := Next(s, t, LoadCount);
            if s'.threads[t].Idle? then Unlocked(s, s') else Inv(s') && Unlocked(s, Next(s', t, SwapAfterLoad))
  {
    StepKeeps(s, t, LoadCount);
    OnlyOneMoves(s, t, LoadCount);
    var s' := Next(s, t, LoadCount);
    hide InHand, Counted, NoneFromTheFuture, SharedLocked, Locked;
    if !s'.threads[t].Idle? {
      SwapUnlocks(s', t);
    }
  }

  /** The thread that holds the lock, if there is one, can let go of it. */
  lemma Unlock(s: Slot) returns (steps: seq<(nat, Step)>)
    requires Inv(s) && s.life.DISCONNECTING?
    ensures Unlocked(s, Run(s, steps)) && !Locked(Run(s, steps))
  {
    hide Inv, Unlocked;
    if t: nat :| t < |s.threads| && HasLock(s.threads[t]) {
      if s.threads[t].Began? {
        LoadUnlocks(s, t);
        steps := OneStep(s, t, LoadCount);
        if !Next(s, t, LoadCount).threads[t].Idle? {
          steps := ThenOneStep(s, steps, t, SwapAfterLoad);
        }
      } else {
        SwapUnlocks(s, t);
        steps := OneStep(s, t, SwapAfterLoad);
      }
    } else {
      steps := [];
      NoLocks(s);
    }
    NowUnlocked(s, Run(s, steps));
  }

  lemma NoLocks(s: Slot)
    requires Inv(s) && s.life.DISCONNECTING? && forall t :: 0 <= t < |s.threads| ==> !HasLock(s.threads[t])
    ensures Unlocked(s, s)
  {
  }

  lemma NowUnlocked(s: Slot, s': Slot)
    requires Unlocked(s, s')
    ensures !Locked(s')
  {
  }

  /** From here the slot can be freed while `u` is past its key check. */
  lemma Catch(s: Slot, t: nat, u: nat) returns (steps: seq<(nat, Step)>)
    requires Inv(s) && s.life.DISCONNECTING? && Announced(s)
    requires t < |s.threads| && s.threads[t].Idle? && u < |s.threads| && Carrying(s.threads[u]) && s.threads[u].of == s.occupant
    ensures Caught(Run(s, steps), s.occupant)
  {
    steps := Unlock(s);
    var s1 := Run(s, steps);
    if !s1.place.Outside? {
      StepKeeps(s1, t, RoomRemoval);
      steps := ThenOneStep(s, steps, t, RoomRemoval);
      s1 := Next(s1, t, RoomRemoval);
    }
    hide InHand;
    steps := ThenOneStep(s, steps, t, Free);
    var s2 := Next(s1, t, Free);
    assert Carrying(s2.threads[u]);
  }

  // ---------- Every risk can come true ----------

  /** Waiting for its own I/O, in a slot that was taken cleanly. */
  ghost predicate Waiting(s: Slot) {
    Inv(s) && Clean(s) && s.astray == 0 && s.life.DISCONNECT_PENDING?
  }

  /** The swap of `t` finishes the disconnect while `u` is still past its key check. */
  lemma CatchBySwap(s: Slot, t: nat, u: nat) returns (steps: seq<(nat, Step)>)
    requires Waiting(s) && t < |s.threads| && u < |s.threads| && t != u
    requires (s.threads[t].SawNone? || s.threads[t].ReachedZero?) && Carrying(s.threads[u])
    ensures Caught(Run(s, steps), s.occupant)
  {
    assert !IsStraggler(s, t) && !IsStraggler(s, u);
    var step := if s.threads[t].SawNone? then SwapAfterLoad else SwapAfterDecrement;
    StepKeeps(s, t, step);
    hide Inv, Clean, Locked, SharedLocked, Caught;
    var s1 := Next(s, t, step);
    steps := OneStep(s, t, step);
    var more := Catch(s1, t, u);
    RunAppend(s, steps, more);
    steps := steps + more;
  }

  /** A thread that is neither at a completion nor at a disconnect is free to act. */
  lemma OthersAreIdle(s: Slot, t: nat)
    requires LocksOk(s) && !s.life.ACTIVE? && t < |s.threads| && !HasLock(s.threads[t]) && !Carrying(s.threads[t])
    ensures s.threads[t].Idle?
  {
    assert s.threads[t].Registering? ==> SharedLocked(s);
  }

  /** An I/O that is still under way arrives, and is caught. */
  lemma CatchArriving(s: Slot, t: nat, v: nat) returns (steps: seq<(nat, Step)>)
    requires Inv(s) && s.life.DISCONNECTING? && Announced(s) && s.occupant in s.flight
    requires t < |s.threads| && s.threads[t].Idle? && v < |s.threads| && v != t && !Carrying(s.threads[v])
    ensures Caught(Run(s, steps), s.occupant)
  {
    var unlock := Unlock(s);
    var s1 := Run(s, unlock);
    OthersAreIdle(s1, v);
    steps := ThenOneStep(s, unlock, t, Arrive(s.occupant));
    StepKeeps(s1, t, Arrive(s.occupant));
    hide Inv, Locked, SharedLocked, Caught;
    var more := Catch(Next(s1, t, Arrive(s.occupant)), v, t);
    RunAppend(s, steps, more);
    steps := steps + more;
  }

  /** A late swap with I/O still pending: whatever is pending is caught, in hand or arriving. */
  lemma CatchWithPending(s: Slot, t: nat, v: nat) returns (steps: seq<(nat, Step)>)
    requires Waiting(s) && t < |s.threads| && s.threads[t].ReachedZero? && s.pending > 0 && v < |s.threads| && v != t
    ensures Caught(Run(s, steps), s.occupant)
  {
    if u: nat :| u < |s.threads| && u != t && Carrying(s.threads[u]) {
      steps := CatchBySwap(s, t, u);
      return;
    }
    assert !IsStraggler(s, t);
    NobodyInHand(s.threads, s.occupant);
    steps := OneStep(s, t, SwapAfterDecrement);
    StepKeeps(s, t, SwapAfterDecrement);
    hide Inv, Clean, Locked, SharedLocked, Caught, InHand;
    var more := CatchArriving(Next(s, t, SwapAfterDecrement), t, v);
    RunAppend(s, steps, more);
    steps := steps + more;
  }

  lemma StaysWaiting(s: Slot, t: nat, step: Step)
    requires Waiting(s) && CanStep(s, t, step) && (step.LoadCount? || step.Arrive? || step.SeeCount? || step.Decrement?)
    ensures Waiting(Next(s, t, step)) && Next(s, t, step).occupant == s.occupant
  {
    StepKeeps(s, t, step);
    StragglersComeFromReuse(s, t, step);
    hide Inv, Clean, Locked, SharedLocked;
  }

  /** A disconnect that has begun may load the count only when everything has been counted down: by
      then some other thread has reached zero. */
  lemma {:induction false} CatchFromBegan(s: Slot, t: nat, v: nat) returns (steps: seq<(nat, Step)>)
    requires Waiting(s) && t < |s.threads| && s.threads[t].Began? && v < |s.threads| && v != t
    requires s.pending > 0 || exists u :: 0 <= u < |s.threads| && u != t && s.threads[u].ReachedZero?
    ensures Caught(Run(s, steps), s.occupant)
    decreases s.pending, s.flight[s.occupant]
  {
    if u: nat :| u < |s.threads| && u != t && s.threads[u].ReachedZero? {
      steps := CatchAtZero(s, t, u, v);
      return;
    }
    var more;
    if u: nat :| u < |s.threads| && IsInHand(s.threads[u], s.occupant) {
      steps := CountDown(s, u);
      var s1 := Run(s, steps);
      assert s1.pending == 0 ==> s1.threads[u].ReachedZero?;
      more := CatchFromBegan(s1, t, v);
    } else {
      NobodyInHand(s.threads, s.occupant);
      assert !IsStraggler(s, v);
      OthersAreIdle(s, v);
      StaysWaiting(s, v, Arrive(s.occupant));
      steps := OneStep(s, v, Arrive(s.occupant));
      more := CatchFromBegan(Next(s, v, Arrive(s.occupant)), t, v);
    }
    RunAppend(s, steps, more);
    steps := steps + more;
  }

  /** A completion in hand is counted down. */
  lemma CountDown(s: Slot, u: nat) returns (steps: seq<(nat, Step)>)
    requires Waiting(s) && u < |s.threads| && IsInHand(s.threads[u], s.occupant) && s.pending > 0
    ensures var s' := Run(s, steps);
            && Waiting(s') && s'.occupant == s.occupant && s'.pending == s.pending - 1 && |s'.threads| == |s.threads|
            && (forall t :: 0 <= t < |s.threads| && t != u ==> s'.threads[t] == s.threads[t])
            && (s'.pending == 0 ==> s'.threads[u].ReachedZero?)
  {
    hide Waiting, Locked, SharedLocked;
    var s1 := s;
    steps := [];
    if s.threads[u].Checked? {
      StaysWaiting(s, u, SeeCount);
      steps := OneStep(s, u, SeeCount);
      s1 := Next(s, u, SeeCount);
    }
    StaysWaiting(s1, u, Decrement);
    steps := ThenOneStep(s, steps, u, Decrement);
  }

  lemma CatchAtZero(s: Slot, t: nat, u: nat, v: nat) returns (steps: seq<(nat, Step)>)
    requires Waiting(s) && t < |s.threads| && s.threads[t].Began? && u < |s.threads| && u != t && s.threads[u].ReachedZero?
    ensures Caught(Run(s, steps), s.occupant)
  {
    if s.pending > 0 {
      steps := CatchWithPending(s, u, t);
    } else {
      StaysWaiting(s, t, LoadCount);
      var s1 := Next(s, t, LoadCount);
      steps := OneStep(s, t, LoadCount);
      CountIsNatural(s);
      hide Inv, Clean, Locked, SharedLocked, Caught, Waiting;
      var more := CatchBySwap(s1, t, u);
      RunAppend(s, steps, more);
      steps := steps + more;
    }
  }

  lemma CountIsNatural(s: Slot)
    requires Waiting(s)
    ensures s.pending >= 0
  {
  }

  lemma RiskComesTrue(s: Slot) returns (steps: seq<(nat, Step)>)
    requires Waiting(s) && |s.threads| >= 2 && Risky(s)
    ensures Caught(Run(s, steps), s.occupant)
  {
    var t: nat :| t < |s.threads| && WillSwap(s.threads[t]) &&
      (s.pending > 0 || exists u :: 0 <= u < |s.threads| && u != t && s.threads[u].ReachedZero?);
    var v := if t == 0 then 1 else 0;
    assert LocksOk(s);
    hide Waiting, Caught;
    if s.threads[t].Began? {
      steps := CatchFromBegan(s, t, v);
    } else if s.pending > 0 {
      steps := CatchWithPending(s, t, v);
    } else {
      var u: nat :| u < |s.threads| && u != t && s.threads[u].ReachedZero?;
      steps := CatchBySwap(s, t, u);
    }
  }

  /** Exactly when: while an occupant of a slot that was taken cleanly waits for its I/O, its slot
      can come to be freed with one of its completions past the key check if and only if there
      are two threads, and some call has still to swap while I/O is pending or another completion
      has counted down to zero. */
  lemma CaughtExactly(s: Slot)
    requires Inv(s) && Clean(s) && s.astray == 0 && s.life.DISCONNECT_PENDING?
    ensures (exists steps :: Caught(Run(s, steps), s.occupant)) <==> |s.threads| >= 2 && Risky(s)
  {
    hide Run, Inv, Caught, Clean, Risky;
    if |s.threads| >= 2 && Risky(s) {
      var steps := RiskComesTrue(s);
      assert Caught(Run(s, steps), s.occupant);
    } else {
      forall steps
        ensures !Caught(Run(s, steps), s.occupant)
      {
        NeverCaught(s, s.occupant, steps);
      }
    }
  }

  // ---------- It happens ----------

  /** The states of a run, one by one. */
  predicate IsStory(story: seq<Slot>, steps: seq<(nat, Step)>) {
    |story| == |steps| + 1 && forall n :: 0 <= n < |steps| ==> Leads(story[n], steps[n], story[n + 1])
  }

  predicate Leads(s: Slot, step: (nat, Step), s': Slot) {
    CanStep(s, step.0, step.1) && Next(s, step.0, step.1) == s'
  }

  lemma {:induction false} StoryRuns(story: seq<Slot>, steps: seq<(nat, Step)>, n: nat)
    requires IsStory(story, steps) && n <= |steps|
    ensures Run(story[n], steps[n..]) == story[|steps|]
    decreases |steps| - n
  {
    hide CanStep, Next;
    if n < |steps| {
      assert Leads(story[n], steps[n], story[n + 1]);
      assert steps[n..][0] == steps[n] && steps[n..][1..] == steps[n + 1..];
      StoryRuns(story, steps, n + 1);
    }
  }

  const NOTHING: multiset<nat> := multiset{}

  /** An occupant that is in no room. */
  function Roomless(life: Life, occupant: nat, pending: int, threads: seq<Thread>, flight: multiset<nat>, won: multiset<nat>, astray: int): Slot {
    Slot(life, occupant, pending, threads, flight, won, astray, Outside, false)
  }

  /** While one completion of the first occupant stands between its decrement to zero and its
      swap, a second I/O is registered, and completes up to its key check; the first one's swap
      lets the slot be freed, and the second counts down for the next occupant. */
  const LATE_DECREMENT_STEPS: seq<(nat, Step)> := [
    (0, Occupy), (0, SeeActive), (0, Register), (0, Arrive(1)), (0, SeeCount),
    (0, Decrement), (1, SeeActive), (1, Register), (2, BeginDisconnect), (2, LoadCount),
    (1, Arrive(1)), (1, SeeCount), (0, SwapAfterDecrement), (0, Free), (0, Occupy),
    (0, SeeActive), (0, Register), (1, Decrement)]

  const LATE_DECREMENT: seq<Slot> := [
    Roomless(NONE, 0, 0, [Idle, Idle, Idle], NOTHING, NOTHING, 0),
    Roomless(ACTIVE, 1, 0, [Idle, Idle, Idle], NOTHING, NOTHING, 0),
    Roomless(ACTIVE, 1, 0, [Registering, Idle, Idle], NOTHING, NOTHING, 0),
    Roomless(ACTIVE, 1, 1, [Idle, Idle, Idle], multiset{1}, NOTHING, 0),
    Roomless(ACTIVE, 1, 1, [Checked(1), Idle, Idle], NOTHING, NOTHING, 0),
    Roomless(ACTIVE, 1, 1, [Completing(1), Idle, Idle], NOTHING, NOTHING, 0),
    Roomless(ACTIVE, 1, 0, [ReachedZero(1), Idle, Idle], NOTHING, NOTHING, 0),
    Roomless(ACTIVE, 1, 0, [ReachedZero(1), Registering, Idle], NOTHING, NOTHING, 0),
    Roomless(ACTIVE, 1, 1, [ReachedZero(1), Idle, Idle], multiset{1}, NOTHING, 0),
    Roomless(DISCONNECT_PENDING, 1, 1, [ReachedZero(1), Idle, Began], multiset{1}, NOTHING, 0),
    Roomless(DISCONNECT_PENDING, 1, 1, [ReachedZero(1), Idle, Idle], multiset{1}, NOTHING, 0),
    Roomless(DISCONNECT_PENDING, 1, 1, [ReachedZero(1), Checked(1), Idle], NOTHING, NOTHING, 0),
    Roomless(DISCONNECT_PENDING, 1, 1, [ReachedZero(1), Completing(1), Idle], NOTHING, NOTHING, 0),
    Roomless(DISCONNECTING, 1, 1, [Idle, Completing(1), Idle], NOTHING, multiset{1}, 0),
    Roomless(NONE, 1, 1, [Idle, Completing(1), Idle], NOTHING, multiset{1}, 0),
    Roomless(ACTIVE, 2, 0, [Idle, Completing(1), Idle], NOTHING, multiset{1}, 0),
    Roomless(ACTIVE, 2, 0, [Registering, Completing(1), Idle], NOTHING, multiset{1}, 0),
    Roomless(ACTIVE, 2, 1, [Idle, Completing(1), Idle], multiset{2}, multiset{1}, 0),
    Roomless(ACTIVE, 2, 0, [Idle, ReachedZero(1), Idle], multiset{2}, multiset{1}, 1)]

  /** A completion of the first occupant has counted down to zero when the slot is freed; its swap
      comes while the next occupant waits for its own I/O. */
  const LATE_SWAP_STEPS: seq<(nat, Step)> := [
    (0, Occupy), (0, SeeActive), (0, Register), (0, Arrive(1)), (0, SeeCount),
    (0, Decrement), (2, BeginDisconnect), (2, LoadCount), (2, SwapAfterLoad), (2, Free),
    (2, Occupy), (1, SeeActive), (1, Register), (2, BeginDisconnect), (2, LoadCount),
    (0, SwapAfterDecrement), (1, Arrive(2)), (1, SeeCount), (1, Decrement), (1, SwapAfterDecrement)]

  const LATE_SWAP: seq<Slot> := [
    Roomless(NONE, 0, 0, [Idle, Idle, Idle], NOTHING, NOTHING, 0),
    Roomless(ACTIVE, 1, 0, [Idle, Idle, Idle], NOTHING, NOTHING, 0),
    Roomless(ACTIVE, 1, 0, [Registering, Idle, Idle], NOTHING, NOTHING, 0),
    Roomless(ACTIVE, 1, 1, [Idle, Idle, Idle], multiset{1}, NOTHING, 0),
    Roomless(ACTIVE, 1, 1, [Checked(1), Idle, Idle], NOTHING, NOTHING, 0),
    Roomless(ACTIVE, 1, 1, [Completing(1), Idle, Idle], NOTHING, NOTHING, 0),
    Roomless(ACTIVE, 1, 0, [ReachedZero(1), Idle, Idle], NOTHING, NOTHING, 0),
    Roomless(DISCONNECT_PENDING, 1, 0, [ReachedZero(1), Idle, Began], NOTHING, NOTHING, 0),
    Roomless(DISCONNECT_PENDING, 1, 0, [ReachedZero(1), Idle, SawNone], NOTHING, NOTHING, 0),
    Roomless(DISCONNECTING, 1, 0, [ReachedZero(1), Idle, Idle], NOTHING, multiset{1}, 0),
    Roomless(NONE, 1, 0, [ReachedZero(1), Idle, Idle], NOTHING, multiset{1}, 0),
    Roomless(ACTIVE, 2, 0, [ReachedZero(1), Idle, Idle], NOTHING, multiset{1}, 0),
    Roomless(ACTIVE, 2, 0, [ReachedZero(1), Registering, Idle], NOTHING, multiset{1}, 0),
    Roomless(ACTIVE, 2, 1, [ReachedZero(1), Idle, Idle], multiset{2}, multiset{1}, 0),
    Roomless(DISCONNECT_PENDING, 2, 1, [ReachedZero(1), Idle, Began], multiset{2}, multiset{1}, 0),
    Roomless(DISCONNECT_PENDING, 2, 1, [ReachedZero(1), Idle, Idle], multiset{2}, multiset{1}, 0),
    Roomless(DISCONNECTING, 2, 1, [Idle, Idle, Idle], multiset{2}, multiset{1, 1}, 0),
    Roomless(DISCONNECTING, 2, 1, [Idle, Checked(2), Idle], NOTHING, multiset{1, 1}, 0),
    Roomless(DISCONNECTING, 2, 1, [Idle, Completing(2), Idle], NOTHING, multiset{1, 1}, 0),
    Roomless(DISCONNECTING, 2, 0, [Idle, ReachedZero(2), Idle], NOTHING, multiset{1, 1}, 0),
    Roomless(DISCONNECTING, 2, 0, [Idle, Idle, Idle], NOTHING, multiset{1, 1}, 0)]

  lemma Multisets()
    ensures NOTHING + multiset{1} == multiset{1} && NOTHING + multiset{2} == multiset{2} && multiset{1} + multiset{1} == multiset{1, 1}
    ensures multiset{1} - multiset{1} == NOTHING && multiset{2} - multiset{2} == NOTHING
  {
  }

  lemma LateDecrementFrom0(n: nat)
    requires n < 2
    ensures Leads(LATE_DECREMENT[n], LATE_DECREMENT_STEPS[n], LATE_DECREMENT[n + 1])
  {
  }

  lemma LateDecrementFrom2(n: nat)
    requires 2 <= n < 4
    ensures Leads(LATE_DECREMENT[n], LATE_DECREMENT_STEPS[n], LATE_DECREMENT[n + 1])
  {
    Multisets();
  }

  lemma LateDecrementFrom4(n: nat)
    requires 4 <= n < 6
    ensures Leads(LATE_DECREMENT[n], LATE_DECREMENT_STEPS[n], LATE_DECREMENT[n + 1])
  {
    Multisets();
  }

  lemma LateDecrementFrom6(n: nat)
    requires 6 <= n < 8
    ensures Leads(LATE_DECREMENT[n], LATE_DECREMENT_STEPS[n], LATE_DECREMENT[n + 1])
  {
    Multisets();
  }

  lemma LateDecrementFrom8(n: nat)
    requires 8 <= n < 10
    ensures Leads(LATE_DECREMENT[n], LATE_DECREMENT_STEPS[n], LATE_DECREMENT[n + 1])
  {
    Multisets();
  }

  lemma LateDecrementFrom10(n: nat)
    requires 10 <= n < 12
    ensures Leads(LATE_DECREMENT[n], LATE_DECREMENT_STEPS[n], LATE_DECREMENT[n + 1])
  {
    Multisets();
  }

  lemma LateDecrementFrom12(n: nat)
    requires 12 <= n < 14
    ensures Leads(LATE_DECREMENT[n], LATE_DECREMENT_STEPS[n], LATE_DECREMENT[n + 1])
  {
    Multisets();
  }

  lemma LateDecrementFrom14(n: nat)
    requires 14 <= n < 16
    ensures Leads(LATE_DECREMENT[n], LATE_DECREMENT_STEPS[n], LATE_DECREMENT[n + 1])
  {
    Multisets();
  }

  lemma LateDecrementFrom16(n: nat)
    requires 16 <= n < 18
    ensures Leads(LATE_DECREMENT[n], LATE_DECREMENT_STEPS[n], LATE_DECREMENT[n + 1])
  {
    Multisets();
  }

  lemma LateSwapFrom0(n: nat)
    requires n < 2
    ensures Leads(LATE_SWAP[n], LATE_SWAP_STEPS[n], LATE_SWAP[n + 1])
  {
  }

  lemma LateSwapFrom2(n: nat)
    requires 2 <= n < 4
    ensures Leads(LATE_SWAP[n], LATE_SWAP_STEPS[n], LATE_SWAP[n + 1])
  {
    Multisets();
  }

  lemma LateSwapFrom4(n: nat)
    requires 4 <= n < 6
    ensures Leads(LATE_SWAP[n], LATE_SWAP_STEPS[n], LATE_SWAP[n + 1])
  {
    Multisets();
  }

  lemma LateSwapFrom6(n: nat)
    requires 6 <= n < 8
    ensures Leads(LATE_SWAP[n], LATE_SWAP_STEPS[n], LATE_SWAP[n + 1])
  {
    Multisets();
  }

  lemma LateSwapFrom8(n: nat)
    requires 8 <= n < 10
    ensures Leads(LATE_SWAP[n], LATE_SWAP_STEPS[n], LATE_SWAP[n + 1])
  {
    Multisets();
  }

  lemma LateSwapFrom10(n: nat)
    requires 10 <= n < 12
    ensures Leads(LATE_SWAP[n], LATE_SWAP_STEPS[n], LATE_SWAP[n + 1])
  {
    Multisets();
  }

  lemma LateSwapFrom12(n: nat)
    requires 12 <= n < 14
    ensures Leads(LATE_SWAP[n], LATE_SWAP_STEPS[n], LATE_SWAP[n + 1])
  {
    Multisets();
  }

  lemma LateSwapFrom14(n: nat)
    requires 14 <= n < 16
    ensures Leads(LATE_SWAP[n], LATE_SWAP_STEPS[n], LATE_SWAP[n + 1])
  {
    Multisets();
  }

  lemma LateSwapFrom16(n: nat)
    requires 16 <= n < 18
    ensures Leads(LATE_SWAP[n], LATE_SWAP_STEPS[n], LATE_SWAP[n + 1])
  {
    Multisets();
  }

  lemma LateSwapFrom18(n: nat)
    requires 18 <= n < 20
    ensures Leads(LATE_SWAP[n], LATE_SWAP_STEPS[n], LATE_SWAP[n + 1])
  {
    Multisets();
  }

  /** So a count can be zero although a receive is under way. */
  lemma LateDecrementHappens()
    ensures var s := Run(Unused(3), LATE_DECREMENT_STEPS);
            s.life.ACTIVE? && s.occupant == 2 && s.pending == 0 && s.flight == multiset{2}
  {
    assert Unused(3) == LATE_DECREMENT[0] && LATE_DECREMENT_STEPS[0..] == LATE_DECREMENT_STEPS;
    hide Leads, Run;
    forall n | 0 <= n < |LATE_DECREMENT_STEPS|
      ensures Leads(LATE_DECREMENT[n], LATE_DECREMENT_STEPS[n], LATE_DECREMENT[n + 1])
    {
      if n < 2 {
        LateDecrementFrom0(n);
      } else if n < 4 {
        LateDecrementFrom2(n);
      } else if n < 6 {
        LateDecrementFrom4(n);
      } else if n < 8 {
        LateDecrementFrom6(n);
      } else if n < 10 {
        LateDecrementFrom8(n);
      } else if n < 12 {
        LateDecrementFrom10(n);
      } else if n < 14 {
        LateDecrementFrom12(n);
      } else if n < 16 {
        LateDecrementFrom14(n);
      } else {
        LateDecrementFrom16(n);
      }
    }
    StoryRuns(LATE_DECREMENT, LATE_DECREMENT_STEPS, 0);
  }

  /** So an occupant's disconnect can be complete, with all its I/O done and no call under way,
      without having been announced. */
  lemma LateSwapHappens()
    ensures var s := Run(Unused(3), LATE_SWAP_STEPS);
            && s.life.DISCONNECTING? && s.occupant == 2 && !Announced(s) && s.place.Outside?
            && s.flight == NOTHING && s.threads == [Idle, Idle, Idle]
  {
    assert Unused(3) == LATE_SWAP[0] && LATE_SWAP_STEPS[0..] == LATE_SWAP_STEPS;
    hide Leads, Run;
    forall n | 0 <= n < |LATE_SWAP_STEPS|
      ensures Leads(LATE_SWAP[n], LATE_SWAP_STEPS[n], LATE_SWAP[n + 1])
    {
      if n < 2 {
        LateSwapFrom0(n);
      } else if n < 4 {
        LateSwapFrom2(n);
      } else if n < 6 {
        LateSwapFrom4(n);
      } else if n < 8 {
        LateSwapFrom6(n);
      } else if n < 10 {
        LateSwapFrom8(n);
      } else if n < 12 {
        LateSwapFrom10(n);
      } else if n < 14 {
        LateSwapFrom12(n);
      } else if n < 16 {
        LateSwapFrom14(n);
      } else if n < 18 {
        LateSwapFrom16(n);
      } else {
        LateSwapFrom18(n);
      }
    }
    StoryRuns(LATE_SWAP, LATE_SWAP_STEPS, 0);
  }

  // ---------- What becomes of an unannounced disconnect ----------

  /** The disconnect is complete and the lobby has not been told. */
  predicate Unannounced(s: Slot) {
    s.life.DISCONNECTING? && !Announced(s)
  }

  /** The occupant `of` is gone. */
  predicate Gone(s: Slot, of: nat) {
    s.occupant > of || (s.occupant == of && s.life.NONE?)
  }

  /** Nobody announces the disconnect of a session that no room can remove. */
  lemma {:induction false} NobodyAnnounces(s: Slot, steps: seq<(nat, Step)>)
    requires Unannounced(s) && !s.place.AsPlayer?
    ensures var s' := Run(s, steps);
            Unannounced(s') && s'.occupant == s.occupant && !s'.place.AsPlayer?
    decreases |steps|
  {
    if steps != [] {
      NobodyAnnounces(if CanStep(s, steps[0].0, steps[0].1) then Next(s, steps[0].0, steps[0].1) else s, steps[1..]);
    }
  }

  /** How many steps a thread's completion has still to make. */
  function StepsLeft(t: Thread): nat {
    match t
    case Checked(_) => 3
    case Completing(_) => 2
    case ReachedZero(_) => 1
    case _ => 0
  }

  function CompletionStep(t: Thread): Step {
    if t.Checked? then SeeCount else if t.Completing? then Decrement else SwapAfterDecrement
  }

  lemma CompletionGoesOn(s: Slot, t: nat)
    requires Inv(s) && s.life.DISCONNECTING? && !Locked(s) && t < |s.threads| && Carrying(s.threads[t])
    ensures var step := CompletionStep(s.threads[t]);
            && CanStep(s, t, step)
            && var s' := Next(s, t, step);
               StillDisconnecting(s, s') && !Locked(s') && StepsLeft(s'.threads[t]) < StepsLeft(s.threads[t])
  {
    var step := CompletionStep(s.threads[t]);
    StepKeeps(s, t, step);
    OnlyOneMoves(s, t, step);
    hide Inv, InHand, SharedLocked;
  }

  /** A thread at a completion can finish it, and that changes nothing that matters here. */
  lemma {:induction false} FinishCompletion(s: Slot, t: nat) returns (steps: seq<(nat, Step)>)
    requires Inv(s) && s.life.DISCONNECTING? && !Locked(s) && t < |s.threads|
    ensures StillDisconnecting(s, Run(s, steps)) && !Locked(Run(s, steps)) && Run(s, steps).threads[t].Idle?
    decreases StepsLeft(s.threads[t])
  {
    if Carrying(s.threads[t]) {
      CompletionGoesOn(s, t);
      var step := CompletionStep(s.threads[t]);
      hide Inv, CanStep, Next, Locked, CompletionStep;
      var first := OneStep(s, t, step);
      var more := FinishCompletion(Next(s, t, step), t);
      RunAppend(s, first, more);
      steps := first + more;
    } else {
      steps := [];
      assert HasLock(s.threads[t]) ==> Locked(s);
      OthersAreIdle(s, t);
    }
  }

  /** A host that kicks the player gets the slot freed. */
  lemma KickFrees(s: Slot) returns (steps: seq<(nat, Step)>)
    requires Inv(s) && Unannounced(s) && s.place.AsPlayer?
    ensures Gone(Run(s, steps), s.occupant)
  {
    var unlock := Unlock(s);
    var s1 := Run(s, unlock);
    var finish := FinishCompletion(s1, 0);
    RunAppend(s, unlock, finish);
    var s2 := Run(s1, finish);
    StepKeeps(s2, 0, RoomRemoval);
    steps := ThenOneStep(s, unlock + finish, 0, RoomRemoval);
    var s3 := Next(s2, 0, RoomRemoval);
    steps := ThenOneStep(s, steps, 0, Free);
  }

  /** A disconnect that is complete and was not announced can still lead to a free slot if and only
      if the session is in a room whose host can kick it: removing it, the room announces the
      disconnect after all. Otherwise the slot is never freed, whatever follows. */
  lemma UnannouncedExactly(s: Slot)
    requires Inv(s) && Unannounced(s)
    ensures (exists steps :: Gone(Run(s, steps), s.occupant)) <==> s.place.AsPlayer?
  {
    hide Run, Inv, Gone;
    if s.place.AsPlayer? {
      var steps := KickFrees(s);
      assert Gone(Run(s, steps), s.occupant);
    } else {
      forall steps
        ensures !Gone(Run(s, steps), s.occupant)
      {
        NobodyAnnounces(s, steps);
        StillThere(Run(s, steps), s.occupant);
      }
    }
  }

  lemma StillThere(s: Slot, of: nat)
    requires Unannounced(s) && s.occupant == of
    ensures !Gone(s, of)
  {
  }
}
