/** The game-phase barrier: worker threads that are called to a phase first work off the room
    lifecycle tasks together, wait for each other, and then tick the rooms. A slow thread may
    still be in an old phase when the next one starts. Every load, store, exchange and
    compare-and-swap of the shared fields is a step of its own. */
module PhaseBarrier {

  /** Where a thread is, and in which phase. `Popping` has drawn an index below the task count
      and waits for its task; `Working` runs the task and may have a half-built room in hand;
      `Last` has seen that it is the last to finish, `Releasing` has announced it. */
  datatype Thread =
    | Available
    | Starting(phase: nat)
    | Preparing(phase: nat)
    | Acquired(phase: nat)
    | Claimed(phase: nat)
    | AwaitingReady(phase: nat)
    | Drawing(phase: nat)
    | Popping(phase: nat)
    | Working(phase: nat, building: Option<nat>)
    | Finished(phase: nat)
    | Last(phase: nat)
    | Releasing(phase: nat)
    | AwaitingComplete(phase: nat)
    | Scanning(phase: nat)
    | Ticking(phase: nat, room: nat)

  datatype Option<T> = None | Some(value: T)

  /** The shared context of one phase; `popped` records how many of its tasks have been taken
      from the queue. */
  datatype Phase = Phase(threadCount: nat, preparing: bool, ready: bool, complete: bool,
                         nextIndex: nat, taskCount: nat, completed: nat, popped: nat)

  /** `owner` stands for the flag that lifecycle work is going on, with the phase that set it.
      `busy[r]` is the processing state of room `r`. `queued` and `taken` are the lifecycle
      tasks ever accepted and ever started, and `count` is the unclaimed part. */
  datatype State<T> = State(threads: seq<Thread>, phases: seq<Phase>, owner: Option<nat>, busy: seq<bool>,
                            count: nat, items: seq<T>, queued: seq<T>, taken: seq<T>)

  // ---------- Steps ----------

  datatype Step<T> =
    | StartPhase(chosen: seq<bool>)   // the timer calls every chosen thread
    | Enqueue(task: T)
    | Prepare                         // compare-and-swap of is_lifecycle_preparing
    | Acquire                         // compare-and-swap of is_lifecycle_processing_
    | Claim
    | Publish                         // is_lifecycle_ready
    | SeeReady
    | Draw                            // fetch_add of next_lifecycle_task_index
    | Pop
    | BeginRoom
    | CompleteRoom
    | AbandonRoom
    | EndTask
    | Finish                          // fetch_add of completed_lifecycle_thread_count
    | Announce                        // is_lifecycle_complete
    | Release                         // is_lifecycle_processing_
    | SeeComplete
    | ScanRoom(room: nat)             // a room of the active list, with its compare-and-swap
    | TickDone
    | Leave                           // the active list is exhausted

  predicate CanStep<T>(s: State<T>, t: nat, step: Step<T>) {
    && t < |s.threads|
    && (s.threads[t] != Available ==> s.threads[t].phase < |s.phases|)
    && match step
       case StartPhase(chosen) => |chosen| == |s.threads| && forall u :: 0 <= u < |chosen| && chosen[u] ==> s.threads[u].Available?
       case Enqueue(_) => true
       case Prepare => s.threads[t].Starting?
       case Acquire => s.threads[t].Preparing? && s.owner.None?
       case Claim => s.threads[t].Acquired?
       case Publish => s.threads[t].Claimed?
       case SeeReady => s.threads[t].AwaitingReady? && s.phases[s.threads[t].phase].ready
       case Draw => s.threads[t].Drawing?
       case Pop => s.threads[t].Popping? && s.items != []
       case BeginRoom => s.threads[t].Working? && s.threads[t].building.None?
       case CompleteRoom => s.threads[t].Working? && s.threads[t].building.Some? && s.threads[t].building.value < |s.busy|
       case AbandonRoom => s.threads[t].Working? && s.threads[t].building.Some?
       case EndTask => s.threads[t].Working? && s.threads[t].building.None?
       case Finish => s.threads[t].Finished?
       case Announce => s.threads[t].Last?
       case Release => s.threads[t].Releasing?
       case SeeComplete => s.threads[t].AwaitingComplete? && s.phases[s.threads[t].phase].complete
       case ScanRoom(room) => s.threads[t].Scanning? && room < |s.busy|
       case TickDone => s.threads[t].Ticking? && s.threads[t].room < |s.busy|
       case Leave => s.threads[t].Scanning?
  }

  function Called(threads: seq<Thread>, chosen: seq<bool>, phase: nat): (threads': seq<Thread>)
    requires |threads| == |chosen|
    ensures |threads'| == |threads|
    ensures forall u :: 0 <= u < |threads| ==> threads'[u] == if chosen[u] then Starting(phase) else threads[u]
  {
    seq(|threads|, (u: int) requires 0 <= u < |threads| => if chosen[u] then Starting(phase) else threads[u])
  }

  function HowMany(chosen: seq<bool>): nat {
    if chosen == [] then 0 else HowMany(chosen[..|chosen| - 1]) + if chosen[|chosen| - 1] then 1 else 0
  }

  function Moved<T>(s: State<T>, t: nat, thread: Thread): State<T>
    requires t < |s.threads|
  {
    s.(threads := s.threads[t := thread])
  }

  function InPhase<T>(s: State<T>, c: nat, phase: Phase): State<T>
    requires c < |s.phases|
  {
    s.(phases := s.phases[c := phase])
  }

  function Next<T>(s: State<T>, t: nat, step: Step<T>): State<T>
    requires CanStep(s, t, step)
  {
    match step
    case StartPhase(chosen) =>
      s.(threads := Called(s.threads, chosen, |s.phases|),
         phases := s.phases + [Phase(HowMany(chosen), false, false, false, 0, 0, 0, 0)])
    case Enqueue(task) => s.(count := s.count + 1, items := s.items + [task], queued := s.queued + [task])
    case _ => ThreadNext(s, t, step)
  }

  /** The steps of thread `t` itself. */
  function ThreadNext<T>(s: State<T>, t: nat, step: Step<T>): State<T>
    requires CanStep(s, t, step) && !step.StartPhase? && !step.Enqueue?
  {
    var c := s.threads[t].phase;
    var p := s.phases[c];
    match step
    case Prepare =>
      if p.preparing then Moved(s, t, AwaitingReady(c))
      else Moved(InPhase(s, c, p.(preparing := true)), t, Preparing(c))
    case Acquire => Moved(s, t, Acquired(c)).(owner := Some(c))
    case Claim => Moved(InPhase(s, c, p.(taskCount := s.count)), t, Claimed(c)).(count := 0)
    case Publish => Moved(InPhase(s, c, p.(ready := true)), t, AwaitingReady(c))
    case SeeReady => Moved(s, t, Drawing(c))
    case Draw =>
      Moved(InPhase(s, c, p.(nextIndex := p.nextIndex + 1)), t, if p.nextIndex < p.taskCount then Popping(c) else Finished(c))
    case Pop =>
      Moved(InPhase(s, c, p.(popped := p.popped + 1)), t, Working(c, None)).(items := s.items[1..], taken := s.taken + [s.items[0]])
    case BeginRoom => Moved(s, t, Working(c, Some(|s.busy|))).(busy := s.busy + [true])
    case CompleteRoom => Moved(s, t, Working(c, None)).(busy := s.busy[s.threads[t].building.value := false])
    case AbandonRoom => Moved(s, t, Working(c, None))
    case EndTask => Moved(s, t, Drawing(c))
    case Finish =>
      Moved(InPhase(s, c, p.(completed := p.completed + 1)), t, if p.completed + 1 == p.threadCount then Last(c) else AwaitingComplete(c))
    case Announce => Moved(InPhase(s, c, p.(complete := true)), t, Releasing(c))
    case Release => Moved(s, t, AwaitingComplete(c)).(owner := None)
    case SeeComplete => Moved(s, t, Scanning(c))
    case ScanRoom(room) => if s.busy[room] then s else Moved(s, t, Ticking(c, room)).(busy := s.busy[room := true])
    case TickDone => Moved(s, t, Scanning(c)).(busy := s.busy[s.threads[t].room := false])
    case Leave => Moved(s, t, Available)
  }

  // ---------- Counting threads ----------

  /** Still in front of the barrier of phase `c`. */
  predicate IsPending(t: Thread, c: nat) {
    (t.Starting? || t.Preparing? || t.Acquired? || t.Claimed? || t.AwaitingReady? || t.Drawing? || t.Popping? || t.Working? || t.Finished?)
    && t.phase == c
  }

  function Pending(threads: seq<Thread>, c: nat): nat {
    if threads == [] then 0
    else Pending(threads[..|threads| - 1], c) + if IsPending(threads[|threads| - 1], c) then 1 else 0
  }

  function Poppers(threads: seq<Thread>, c: nat): nat {
    if threads == [] then 0
    else Poppers(threads[..|threads| - 1], c) + if threads[|threads| - 1] == Popping(c) then 1 else 0
  }

  lemma {:induction false} CountUpdate(threads: seq<Thread>, t: nat, thread: Thread, c: nat)
    requires t < |threads|
    ensures Pending(threads[t := thread], c) ==
              Pending(threads, c) - (if IsPending(threads[t], c) then 1 else 0) + (if IsPending(thread, c) then 1 else 0)
    ensures Poppers(threads[t := thread], c) ==
              Poppers(threads, c) - (if threads[t] == Popping(c) then 1 else 0) + (if thread == Popping(c) then 1 else 0)
  {
    hide IsPending;
    var n := |threads| - 1;
    var changed := threads[t := thread];
    if t == n {
      assert changed[..n] == threads[..n];
    } else {
      assert changed[..n] == threads[..n][t := thread];
      CountUpdate(threads[..n], t, thread, c);
    }
  }

  lemma {:induction false} CountCalled(threads: seq<Thread>, chosen: seq<bool>, phase: nat, c: nat)
    requires |threads| == |chosen| && forall u :: 0 <= u < |chosen| && chosen[u] ==> threads[u].Available?
    requires forall u :: 0 <= u < |threads| ==> !IsPending(threads[u], phase)
    ensures Pending(Called(threads, chosen, phase), c) == if c == phase then HowMany(chosen) else Pending(threads, c)
    ensures Poppers(Called(threads, chosen, phase), c) == Poppers(threads, c)
  {
    if threads != [] {
      var n := |threads| - 1;
      assert Called(threads, chosen, phase)[..n] == Called(threads[..n], chosen[..n], phase);
      CountCalled(threads[..n], chosen[..n], phase, c);
    }
  }

  /** A thread that is counted makes the count positive. */
  lemma CountedAtLeast(threads: seq<Thread>, t: nat, c: nat)
    requires t < |threads|
    ensures IsPending(threads[t], c) ==> Pending(threads, c) > 0
    ensures threads[t] == Popping(c) ==> Poppers(threads, c) > 0
  {
    CountUpdate(threads, t, Available, c);
  }

  // ---------- The invariant ----------

  /** What a thread's position says about its phase. */
  ghost predicate ThreadOk<T>(s: State<T>, t: Thread) {
    t == Available ||
    (t.phase < |s.phases| &&
     var p := s.phases[t.phase];
     match t
     case Starting(_) => true
     case Preparing(_) => p.preparing && !p.ready
     case Acquired(c) => p.preparing && !p.ready && s.owner == Some(c) && p.taskCount == 0
     case Claimed(c) => p.preparing && !p.ready && s.owner == Some(c)
     case AwaitingReady(_) => true
     case Drawing(_) => p.ready
     case Popping(_) => p.ready
     case Working(_, _) => p.ready
     case Finished(_) => p.ready && p.nextIndex >= p.taskCount
     case Last(c) => p.completed == p.threadCount > 0 && !p.complete && s.owner == Some(c)
     case Releasing(c) => p.complete && p.threadCount > 0 && s.owner == Some(c)
     case AwaitingComplete(_) => true
     case Scanning(_) => p.complete
     case Ticking(_, _) => p.complete)
  }

  function Least(a: nat, b: nat): nat {
    if a < b then a else b
  }

  ghost predicate PhaseOk<T>(s: State<T>, c: nat)
    requires c < |s.phases|
  {
    var p := s.phases[c];
    && Pending(s.threads, c) + p.completed == p.threadCount
    && p.popped + Poppers(s.threads, c) == Least(p.nextIndex, p.taskCount)
    && (p.ready ==> p.preparing)
    && (!p.ready ==> p.nextIndex == 0 && p.completed == 0)
    && (!p.ready && s.owner != Some(c) ==> p.taskCount == 0)
    && (p.complete ==> p.ready && p.completed == p.threadCount > 0)
    && (p.completed > 0 ==> p.ready && p.nextIndex >= p.taskCount)
    && (p.ready && p.completed < p.threadCount ==> s.owner == Some(c))
    && (s.owner != Some(c) ==> p.popped == p.taskCount)
  }

  /** The one who prepares a phase, and the one who closes it, are alone in doing so. */
  predicate IsPreparing(t: Thread) {
    t.Preparing? || t.Acquired? || t.Claimed?
  }

  predicate IsClosing(t: Thread) {
    t.Last? || t.Releasing?
  }

  ghost predicate Alone<T>(s: State<T>) {
    forall t, u :: 0 <= t < u < |s.threads| ==>
      && (IsPreparing(s.threads[t]) && IsPreparing(s.threads[u]) ==> s.threads[t].phase != s.threads[u].phase)
      && !(IsClosing(s.threads[t]) && IsClosing(s.threads[u]))
  }

  /** The room a thread has in hand, to tick or to build. */
  function RoomOf(t: Thread): Option<nat> {
    match t
    case Ticking(_, room) => Some(room)
    case Working(_, building) => building
    case _ => None
  }

  ghost predicate RoomsOk<T>(s: State<T>) {
    && (forall t :: 0 <= t < |s.threads| && RoomOf(s.threads[t]).Some? ==>
          RoomOf(s.threads[t]).value < |s.busy| && s.busy[RoomOf(s.threads[t]).value])
    && (forall t, u :: 0 <= t < u < |s.threads| && RoomOf(s.threads[t]).Some? ==> RoomOf(s.threads[t]) != RoomOf(s.threads[u]))
  }

  /** The tasks claimed by the owner and not yet taken, with the unclaimed ones, are exactly
      those in the queue. */
  ghost predicate QueueOk<T>(s: State<T>) {
    && s.queued == s.taken + s.items
    && (s.owner.Some? ==> s.owner.value < |s.phases| && s.phases[s.owner.value].popped <= s.phases[s.owner.value].taskCount)
    && |s.items| == s.count + if s.owner.Some? then s.phases[s.owner.value].taskCount - s.phases[s.owner.value].popped else 0
  }

  ghost predicate Inv<T>(s: State<T>) {
    && (forall t :: 0 <= t < |s.threads| ==> ThreadOk(s, s.threads[t]))
    && (forall c :: 0 <= c < |s.phases| ==> PhaseOk(s, c))
    && Alone(s) && RoomsOk(s) && QueueOk(s)
  }

  // ---------- Every step keeps it ----------

  lemma {:induction false} PoppersArePending(threads: seq<Thread>, c: nat)
    ensures Poppers(threads, c) <= Pending(threads, c)
  {
    if threads != [] {
      PoppersArePending(threads[..|threads| - 1], c);
    }
  }

  /** The facts about the moving thread and its phase that every case below needs. */
  lemma Facts<T>(s: State<T>, t: nat, step: Step<T>)
    requires Inv(s) && CanStep(s, t, step) && !step.StartPhase? && !step.Enqueue?
    ensures var (s', c) := (ThreadNext(s, t, step), s.threads[t].phase);
            && s'.threads == s.threads[t := s'.threads[t]]
            && ThreadOk(s, s.threads[t]) && PhaseOk(s, c)
            && (s.owner.Some? ==> PhaseOk(s, s.owner.value))
            && (IsPending(s.threads[t], c) ==> Pending(s.threads, c) > 0)
            && (s.threads[t] == Popping(c) ==> Poppers(s.threads, c) > 0)
            && Poppers(s.threads, c) <= Pending(s.threads, c)
            && s.threads[t] != Available
  {
    hide Pending, Poppers;
    CountedAtLeast(s.threads, t, s.threads[t].phase);
    PoppersArePending(s.threads, s.threads[t].phase);
  }

  lemma StepKeepsThreads<T>(s: State<T>, t: nat, step: Step<T>)
    requires Inv(s) && CanStep(s, t, step) && !step.StartPhase? && !step.Enqueue?
    ensures var s' := ThreadNext(s, t, step);
            forall u :: 0 <= u < |s'.threads| ==> ThreadOk(s', s'.threads[u])
  {
    hide Pending, Poppers, RoomsOk, QueueOk;
    Facts(s, t, step);
  }

  lemma OwnPhaseKeeps<T>(s: State<T>, t: nat, step: Step<T>)
    requires Inv(s) && CanStep(s, t, step) && !step.StartPhase? && !step.Enqueue?
    ensures PhaseOk(ThreadNext(s, t, step), s.threads[t].phase)
  {
    hide Pending, Poppers, RoomsOk, QueueOk, Alone;
    Facts(s, t, step);
    CountUpdate(s.threads, t, ThreadNext(s, t, step).threads[t], s.threads[t].phase);
  }

  lemma OtherPhaseKeeps<T>(s: State<T>, t: nat, step: Step<T>, c: nat)
    requires Inv(s) && CanStep(s, t, step) && !step.StartPhase? && !step.Enqueue? && c < |s.phases| && c != s.threads[t].phase
    ensures PhaseOk(ThreadNext(s, t, step), c)
  {
    hide Pending, Poppers, RoomsOk, QueueOk, Alone;
    Facts(s, t, step);
    assert PhaseOk(s, c);
    CountUpdate(s.threads, t, ThreadNext(s, t, step).threads[t], c);
  }

  lemma StepKeepsPhases<T>(s: State<T>, t: nat, step: Step<T>)
    requires Inv(s) && CanStep(s, t, step) && !step.StartPhase? && !step.Enqueue?
    ensures var s' := ThreadNext(s, t, step);
            forall c :: 0 <= c < |s'.phases| ==> PhaseOk(s', c)
  {
    hide PhaseOk;
    OwnPhaseKeeps(s, t, step);
    forall c | 0 <= c < |s.phases| && c != s.threads[t].phase
      ensures PhaseOk(ThreadNext(s, t, step), c)
    {
      OtherPhaseKeeps(s, t, step, c);
    }
  }

  lemma StepKeepsAlone<T>(s: State<T>, t: nat, step: Step<T>)
    requires Inv(s) && CanStep(s, t, step) && !step.StartPhase? && !step.Enqueue?
    ensures Alone(ThreadNext(s, t, step))
  {
    hide Pending, Poppers, RoomsOk, QueueOk;
    Facts(s, t, step);
  }

  lemma StepKeepsRooms<T>(s: State<T>, t: nat, step: Step<T>)
    requires Inv(s) && CanStep(s, t, step) && !step.StartPhase? && !step.Enqueue?
    ensures RoomsOk(ThreadNext(s, t, step))
  {
    hide PhaseOk, ThreadOk, Alone, QueueOk;
  }

  lemma StepKeepsQueue<T>(s: State<T>, t: nat, step: Step<T>)
    requires Inv(s) && CanStep(s, t, step) && !step.StartPhase? && !step.Enqueue?
    ensures QueueOk(ThreadNext(s, t, step))
  {
    hide Pending, Poppers, RoomsOk, Alone;
    Facts(s, t, step);
  }

  lemma StartKeepsPhases<T>(s: State<T>, t: nat, step: Step<T>, c: nat)
    requires Inv(s) && CanStep(s, t, step) && step.StartPhase? && c <= |s.phases|
    ensures PhaseOk(Next(s, t, step), c)
  {
    hide Pending, Poppers, HowMany, RoomsOk, QueueOk, Alone;
    assert c < |s.phases| ==> PhaseOk(s, c);
    CountCalled(s.threads, step.chosen, |s.phases|, c);
    NobodyThere(s);
  }

  lemma StartKeeps<T>(s: State<T>, t: nat, step: Step<T>)
    requires Inv(s) && CanStep(s, t, step) && step.StartPhase?
    ensures Inv(Next(s, t, step))
  {
    hide Pending, Poppers, HowMany, PhaseOk;
    forall c | 0 <= c <= |s.phases|
      ensures PhaseOk(Next(s, t, step), c)
    {
      StartKeepsPhases(s, t, step, c);
    }
  }

  /** Nobody can be in a phase that has not started. */
  lemma {:induction false} NoPoppers(threads: seq<Thread>, c: nat)
    requires forall u :: 0 <= u < |threads| ==> threads[u] != Popping(c)
    ensures Poppers(threads, c) == 0
  {
    if threads != [] {
      NoPoppers(threads[..|threads| - 1], c);
    }
  }

  lemma NobodyThere<T>(s: State<T>)
    requires Inv(s)
    ensures Poppers(s.threads, |s.phases|) == 0
  {
    NoPoppers(s.threads, |s.phases|);
  }

  lemma StepKeeps<T>(s: State<T>, t: nat, step: Step<T>)
    requires Inv(s) && CanStep(s, t, step)
    ensures Inv(Next(s, t, step))
  {
    if step.StartPhase? {
      StartKeeps(s, t, step);
    } else if step.Enqueue? {
      EnqueueKeeps(s, t, step);
    } else {
      hide ThreadOk, PhaseOk, Alone, RoomsOk, QueueOk, ThreadNext;
      StepKeepsThreads(s, t, step);
      StepKeepsPhases(s, t, step);
      StepKeepsAlone(s, t, step);
      StepKeepsRooms(s, t, step);
      StepKeepsQueue(s, t, step);
    }
  }

  lemma EnqueueKeeps<T>(s: State<T>, t: nat, step: Step<T>)
    requires Inv(s) && CanStep(s, t, step) && step.Enqueue?
    ensures Inv(Next(s, t, step))
  {
    var s' := Next(s, t, step);
    forall c | 0 <= c < |s'.phases|
      ensures PhaseOk(s', c)
    {
      assert PhaseOk(s, c);
    }
  }

  // ---------- Runs ----------

  function Run<T>(s: State<T>, steps: seq<(nat, Step<T>)>): State<T>
    decreases |steps|
  {
    if steps == [] then s
    else Run(if CanStep(s, steps[0].0, steps[0].1) then Next(s, steps[0].0, steps[0].1) else s, steps[1..])
  }

  function Begin<T>(threads: nat): State<T> {
    State(seq(threads, _ => Available), [], None, [], 0, [], [], [])
  }

  lemma {:induction false} RunKeeps<T>(s: State<T>, steps: seq<(nat, Step<T>)>)
    requires Inv(s)
    ensures Inv(Run(s, steps))
    decreases |steps|
  {
    hide Inv, Next, CanStep;
    if steps != [] {
      if CanStep(s, steps[0].0, steps[0].1) {
        StepKeeps(s, steps[0].0, steps[0].1);
        RunKeeps(Next(s, steps[0].0, steps[0].1), steps[1..]);
      } else {
        RunKeeps(s, steps[1..]);
      }
    }
  }

  /** Two threads are never at lifecycle tasks of different phases. */
  ghost predicate LifecycleExclusive<T>(s: State<T>) {
    forall t, u :: 0 <= t < |s.threads| && 0 <= u < |s.threads| && s.threads[t].Working? && s.threads[u].Working? ==>
      s.threads[t].phase == s.threads[u].phase
  }

  /** Once a thread scans or ticks rooms, every task its phase claimed has been taken from the
      queue, and nobody of the phase is still at one. */
  ghost predicate BarrierHolds<T>(s: State<T>) {
    forall t :: 0 <= t < |s.threads| && (s.threads[t].Scanning? || s.threads[t].Ticking?) ==>
      && s.threads[t].phase < |s.phases|
      && s.phases[s.threads[t].phase].popped == s.phases[s.threads[t].phase].taskCount
      && forall u :: 0 <= u < |s.threads| ==>
           s.threads[u] != Popping(s.threads[t].phase) && !(s.threads[u].Working? && s.threads[u].phase == s.threads[t].phase)
  }

  /** No room is in two hands: neither ticked by two threads nor ticked while being built. */
  ghost predicate RoomsExclusive<T>(s: State<T>) {
    forall t, u :: 0 <= t < |s.threads| && 0 <= u < |s.threads| && t != u && s.threads[t].Ticking? ==>
      RoomOf(s.threads[u]) != Some(s.threads[t].room)
  }

  lemma InvGivesBarrier<T>(s: State<T>)
    requires Inv(s)
    ensures BarrierHolds(s)
  {
    hide Pending, Poppers, RoomsOk, QueueOk, Alone;
    forall t, u | 0 <= t < |s.threads| && (s.threads[t].Scanning? || s.threads[t].Ticking?) && 0 <= u < |s.threads|
      ensures var c := s.threads[t].phase;
              && c < |s.phases| && s.phases[c].popped == s.phases[c].taskCount
              && s.threads[u] != Popping(c) && !(s.threads[u].Working? && s.threads[u].phase == c)
    {
      var c := s.threads[t].phase;
      assert ThreadOk(s, s.threads[t]) && PhaseOk(s, c);
      PoppersArePending(s.threads, c);
      CountedAtLeast(s.threads, u, c);
    }
  }

  lemma InvGivesExclusion<T>(s: State<T>)
    requires Inv(s)
    ensures LifecycleExclusive(s) && RoomsExclusive(s)
  {
    hide Pending, Poppers, QueueOk, Alone;
    forall t | 0 <= t < |s.threads| && s.threads[t].Working?
      ensures s.owner == Some(s.threads[t].phase)
    {
      assert ThreadOk(s, s.threads[t]) && PhaseOk(s, s.threads[t].phase);
      CountedAtLeast(s.threads, t, s.threads[t].phase);
    }
  }

  /** For any number of threads, any overlap of phases and any interleaving: lifecycle work of
      two phases never overlaps, no thread looks at rooms before the lifecycle tasks of its
      phase are done, no room is ticked by two threads or while it is being built, and the
      lifecycle tasks are started exactly once each, in the order they were accepted. */
  lemma PhasesAreOrdered<T>(threads: nat, steps: seq<(nat, Step<T>)>)
    ensures var s := Run(Begin<T>(threads), steps);
            LifecycleExclusive(s) && BarrierHolds(s) && RoomsExclusive(s) && s.queued == s.taken + s.items
  {
    hide Run, LifecycleExclusive, BarrierHolds, RoomsExclusive, ThreadOk, PhaseOk, Alone, RoomsOk;
    BeginIsFine<T>(threads);
    RunKeeps(Begin<T>(threads), steps);
    var s := Run(Begin<T>(threads), steps);
    InvGivesBarrier(s);
    InvGivesExclusion(s);
  }

  lemma BeginIsFine<T>(threads: nat)
    ensures Inv(Begin<T>(threads))
  {
  }

  /** A thread that has drawn a task never waits for one in vain. */
  lemma DrawnTaskIsThere<T>(s: State<T>, t: nat)
    requires Inv(s) && t < |s.threads| && s.threads[t].Popping?
    ensures CanStep(s, t, Pop)
  {
    hide Pending, Poppers, RoomsOk, Alone;
    assert ThreadOk(s, s.threads[t]) && PhaseOk(s, s.threads[t].phase);
    CountedAtLeast(s.threads, t, s.threads[t].phase);
    PoppersArePending(s.threads, s.threads[t].phase);
  }
}
