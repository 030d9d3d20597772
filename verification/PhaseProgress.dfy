/** The phase barrier cannot get stuck: whatever has happened, as long as a thread is away some
    thread can go on, and all of them can be brought home with every phase complete. */
module PhaseProgress {
  import opened PhaseBarrier

  // ---------- Who is waited for ----------

  ghost predicate HasPreparer(threads: seq<Thread>, c: nat) {
    exists t :: 0 <= t < |threads| && IsPreparing(threads[t]) && threads[t].phase == c
  }

  ghost predicate HasLast(threads: seq<Thread>, c: nat) {
    exists t :: 0 <= t < |threads| && threads[t] == Last(c)
  }

  /** The thread that will give the lifecycle flag back, or hand it on. */
  predicate IsHolder(t: Thread, c: nat) {
    t == Acquired(c) || t == Claimed(c) || t == Last(c) || t == Releasing(c)
  }

  ghost predicate HasHolder(threads: seq<Thread>, c: nat) {
    exists t :: 0 <= t < |threads| && IsHolder(threads[t], c)
  }

  /** Whoever waits waits for somebody: for the one who prepares the phase, for the last one to
      finish it, or for the one who has the flag. */
  ghost predicate PhaseLive<T>(s: State<T>, c: nat)
    requires c < |s.phases|
  {
    var p := s.phases[c];
    && (p.preparing && !p.ready ==> HasPreparer(s.threads, c))
    && (!p.complete && p.completed == p.threadCount > 0 ==> HasLast(s.threads, c))
    && (s.owner == Some(c) ==> HasHolder(s.threads, c) || (p.ready && p.completed < p.threadCount))
  }

  ghost predicate WaitOk<T>(s: State<T>, t: Thread) {
    && (t.AwaitingReady? ==> t.phase < |s.phases| && s.phases[t.phase].preparing)
    && (t.AwaitingComplete? ==> t.phase < |s.phases| && s.phases[t.phase].completed > 0)
  }

  ghost predicate Live<T>(s: State<T>) {
    && (forall c :: 0 <= c < |s.phases| ==> PhaseLive(s, c))
    && (forall t :: 0 <= t < |s.threads| ==> WaitOk(s, s.threads[t]))
  }

  // ---------- Every step keeps it ----------

  lemma HaveUpdate(threads: seq<Thread>, t: nat, thread: Thread, c: nat)
    requires t < |threads|
    ensures (HasPreparer(threads, c) && !(IsPreparing(threads[t]) && threads[t].phase == c)) || (IsPreparing(thread) && thread.phase == c) ==>
              HasPreparer(threads[t := thread], c)
    ensures (HasLast(threads, c) && threads[t] != Last(c)) || thread == Last(c) ==> HasLast(threads[t := thread], c)
    ensures (HasHolder(threads, c) && !IsHolder(threads[t], c)) || IsHolder(thread, c) ==> HasHolder(threads[t := thread], c)
  {
    var changed := threads[t := thread];
    assert changed[t] == thread;
    if u :| 0 <= u < |threads| && u != t && IsPreparing(threads[u]) && threads[u].phase == c {
      assert changed[u] == threads[u];
    }
    if u :| 0 <= u < |threads| && u != t && threads[u] == Last(c) {
      assert changed[u] == threads[u];
    }
    if u :| 0 <= u < |threads| && u != t && IsHolder(threads[u], c) {
      assert changed[u] == threads[u];
    }
  }

  lemma StepKeepsPhase<T>(s: State<T>, t: nat, step: Step<T>, c: nat)
    requires Inv(s) && Live(s) && CanStep(s, t, step) && !step.StartPhase? && !step.Enqueue? && c < |s.phases|
    ensures PhaseLive(ThreadNext(s, t, step), c)
  {
    hide Pending, Poppers, RoomsOk, QueueOk, HasPreparer, HasLast, HasHolder, WaitOk, Alone;
    Facts(s, t, step);
    assert PhaseOk(s, c) && PhaseLive(s, c);
    HaveUpdate(s.threads, t, ThreadNext(s, t, step).threads[t], c);
  }

  lemma StepKeepsWaits<T>(s: State<T>, t: nat, step: Step<T>)
    requires Inv(s) && Live(s) && CanStep(s, t, step) && !step.StartPhase? && !step.Enqueue?
    ensures var s' := ThreadNext(s, t, step);
            forall u :: 0 <= u < |s'.threads| ==> WaitOk(s', s'.threads[u])
  {
    hide Pending, Poppers, RoomsOk, QueueOk, PhaseLive, Alone;
    Facts(s, t, step);
  }

  lemma CalledHave(threads: seq<Thread>, chosen: seq<bool>, phase: nat, c: nat)
    requires |threads| == |chosen| && forall u :: 0 <= u < |chosen| && chosen[u] ==> threads[u].Available?
    ensures HasPreparer(threads, c) ==> HasPreparer(Called(threads, chosen, phase), c)
    ensures HasLast(threads, c) ==> HasLast(Called(threads, chosen, phase), c)
    ensures HasHolder(threads, c) ==> HasHolder(Called(threads, chosen, phase), c)
  {
    var called := Called(threads, chosen, phase);
    assert forall u :: 0 <= u < |threads| && !threads[u].Available? ==> called[u] == threads[u];
  }

  lemma StartKeepsLive<T>(s: State<T>, t: nat, step: Step<T>)
    requires Inv(s) && Live(s) && CanStep(s, t, step) && step.StartPhase?
    ensures Live(Next(s, t, step))
  {
    hide Pending, Poppers, HowMany, HasPreparer, HasLast, HasHolder, PhaseOk;
    var s' := Next(s, t, step);
    forall c | 0 <= c < |s'.phases|
      ensures PhaseLive(s', c)
    {
      CalledHave(s.threads, step.chosen, |s.phases|, c);
      assert c < |s.phases| ==> PhaseLive(s, c);
    }
  }

  lemma StepKeepsLive<T>(s: State<T>, t: nat, step: Step<T>)
    requires Inv(s) && Live(s) && CanStep(s, t, step)
    ensures Live(Next(s, t, step))
  {
    hide PhaseOk, Alone, RoomsOk, QueueOk, ThreadOk;
    if step.StartPhase? {
      StartKeepsLive(s, t, step);
    } else if step.Enqueue? {
      assert forall c :: 0 <= c < |s.phases| ==> PhaseLive(s, c) == PhaseLive(Next(s, t, step), c);
    } else {
      hide PhaseLive, WaitOk, ThreadNext;
      forall c | 0 <= c < |s.phases|
        ensures PhaseLive(ThreadNext(s, t, step), c)
      {
        StepKeepsPhase(s, t, step, c);
      }
      StepKeepsWaits(s, t, step);
      SamePhaseCount(s, t, step);
    }
  }

  lemma SamePhaseCount<T>(s: State<T>, t: nat, step: Step<T>)
    requires CanStep(s, t, step) && !step.StartPhase? && !step.Enqueue?
    ensures |ThreadNext(s, t, step).phases| == |s.phases|
  {
  }

  // ---------- Somebody can go on ----------

  /** The step with which a thread goes home. */
  function HomeStep<T>(t: Thread): Step<T>
    requires !t.Available?
  {
    match t
    case Starting(_) => Prepare
    case Preparing(_) => Acquire
    case Acquired(_) => Claim
    case Claimed(_) => Publish
    case AwaitingReady(_) => SeeReady
    case Drawing(_) => Draw
    case Popping(_) => Pop
    case Working(_, building) => if building.Some? then AbandonRoom else EndTask
    case Finished(_) => Finish
    case Last(_) => Announce
    case Releasing(_) => Release
    case AwaitingComplete(_) => SeeComplete
    case Scanning(_) => Leave
    case Ticking(_, _) => TickDone
  }

  ghost predicate MayGo<T>(s: State<T>, t: nat) {
    t < |s.threads| && !s.threads[t].Available? && CanStep(s, t, HomeStep<T>(s.threads[t]))
  }

  lemma {:induction false} SomebodyPending(threads: seq<Thread>, c: nat) returns (t: nat)
    requires Pending(threads, c) > 0
    ensures t < |threads| && IsPending(threads[t], c)
  {
    hide IsPending;
    var n := |threads| - 1;
    if IsPending(threads[n], c) {
      t := n;
    } else {
      t := SomebodyPending(threads[..n], c);
    }
  }

  /** A thread that has drawn a task finds it in the queue. */
  lemma PopperMayGo<T>(s: State<T>, t: nat)
    requires Inv(s) && t < |s.threads| && s.threads[t].Popping?
    ensures MayGo(s, t)
  {
    hide Pending, Poppers, RoomsOk, Alone;
    var c := s.threads[t].phase;
    assert ThreadOk(s, s.threads[t]) && PhaseOk(s, c);
    CountedAtLeast(s.threads, t, c);
  }

  /** In a phase that is ready, whoever is still in front of the barrier can go on. */
  lemma ReadyMayGo<T>(s: State<T>, t: nat)
    requires Inv(s) && t < |s.threads| && !s.threads[t].Available? && s.threads[t].phase < |s.phases|
    requires s.phases[s.threads[t].phase].ready && IsPending(s.threads[t], s.threads[t].phase)
    ensures MayGo(s, t)
  {
    assert ThreadOk(s, s.threads[t]);
    if s.threads[t].Popping? {
      PopperMayGo(s, t);
    }
  }

  /** Whoever has the flag, somebody can go on to give it back. */
  lemma FlagIsWorkedOn<T>(s: State<T>) returns (t: nat)
    requires Inv(s) && Live(s) && s.owner.Some?
    ensures MayGo(s, t)
  {
    hide Pending, Poppers, RoomsOk, Alone;
    var c := s.owner.value;
    assert PhaseOk(s, c) && PhaseLive(s, c);
    if HasHolder(s.threads, c) {
      t :| 0 <= t < |s.threads| && IsHolder(s.threads[t], c);
    } else {
      t := SomebodyPending(s.threads, c);
      assert ThreadOk(s, s.threads[t]);
      ReadyMayGo(s, t);
    }
  }

  /** A phase that is not ready is prepared by somebody, who can go on or waits for the flag. */
  lemma PreparationGoesOn<T>(s: State<T>, c: nat) returns (t: nat)
    requires Inv(s) && Live(s) && c < |s.phases| && s.phases[c].preparing && !s.phases[c].ready
    ensures MayGo(s, t)
  {
    hide Pending, Poppers, RoomsOk, Alone, QueueOk, PhaseOk;
    assert PhaseLive(s, c);
    t :| 0 <= t < |s.threads| && IsPreparing(s.threads[t]) && s.threads[t].phase == c;
    assert ThreadOk(s, s.threads[t]);
    if s.threads[t].Preparing? && s.owner.Some? {
      t := FlagIsWorkedOn(s);
    }
  }

  /** Somebody in front of the barrier of a phase: then somebody can go on. */
  lemma PendingGoesOn<T>(s: State<T>, t: nat) returns (u: nat)
    requires Inv(s) && Live(s) && t < |s.threads| && !s.threads[t].Available? && IsPending(s.threads[t], s.threads[t].phase)
    ensures MayGo(s, u)
  {
    hide Pending, Poppers, RoomsOk, Alone, QueueOk, PhaseOk;
    assert ThreadOk(s, s.threads[t]) && WaitOk(s, s.threads[t]);
    var c := s.threads[t].phase;
    if s.phases[c].ready {
      ReadyMayGo(s, t);
      u := t;
    } else if s.phases[c].preparing {
      u := PreparationGoesOn(s, c);
    } else {
      u := t;
    }
  }

  /** No deadlock: while any thread is away, some thread can take its next step home. */
  lemma SomebodyGoesOn<T>(s: State<T>, t: nat) returns (u: nat)
    requires Inv(s) && Live(s) && t < |s.threads| && !s.threads[t].Available?
    ensures MayGo(s, u)
  {
    hide Pending, Poppers, Alone, QueueOk;
    assert ThreadOk(s, s.threads[t]) && WaitOk(s, s.threads[t]);
    var c := s.threads[t].phase;
    assert PhaseOk(s, c) && PhaseLive(s, c);
    if IsPending(s.threads[t], c) {
      u := PendingGoesOn(s, t);
    } else if s.threads[t].AwaitingComplete? && !s.phases[c].complete {
      if s.phases[c].completed == s.phases[c].threadCount {
        u :| 0 <= u < |s.threads| && s.threads[u] == Last(c);
      } else {
        var v := SomebodyPending(s.threads, c);
        u := PendingGoesOn(s, v);
      }
    } else {
      u := t;
    }
  }

  // ---------- All can come home ----------

  /** How far a thread is from home; every task in the queue sends a thread round once more. */
  function Distance(t: Thread): nat {
    match t
    case Starting(_) => 13
    case Preparing(_) => 12
    case Acquired(_) => 11
    case Claimed(_) => 10
    case AwaitingReady(_) => 9
    case Working(_, building) => if building.Some? then 9 else 8
    case Drawing(_) => 7
    case Popping(_) => 6
    case Finished(_) => 5
    case Last(_) => 4
    case Releasing(_) => 3
    case AwaitingComplete(_) => 2
    case Ticking(_, _) => 2
    case Scanning(_) => 1
    case Available => 0
  }

  function Distances(threads: seq<Thread>): nat {
    if threads == [] then 0 else Distances(threads[..|threads| - 1]) + Distance(threads[|threads| - 1])
  }

  lemma {:induction false} DistancesUpdate(threads: seq<Thread>, t: nat, thread: Thread)
    requires t < |threads|
    ensures Distances(threads[t := thread]) == Distances(threads) - Distance(threads[t]) + Distance(thread)
  {
    hide Distance;
    var n := |threads| - 1;
    var changed := threads[t := thread];
    if t == n {
      assert changed[..n] == threads[..n];
    } else {
      assert changed[..n] == threads[..n][t := thread];
      DistancesUpdate(threads[..n], t, thread);
    }
  }

  function Remaining<T>(s: State<T>): nat {
    3 * |s.items| + Distances(s.threads)
  }

  lemma Homewards<T>(s: State<T>, t: nat)
    requires Inv(s) && MayGo(s, t)
    ensures Remaining(Next(s, t, HomeStep(s.threads[t]))) < Remaining(s)
  {
    hide Pending, Poppers, Alone, QueueOk, PhaseOk, Distances;
    var step: Step<T> := HomeStep(s.threads[t]);
    var s' := Next(s, t, step);
    assert s'.threads == s.threads[t := s'.threads[t]];
    DistancesUpdate(s.threads, t, s'.threads[t]);
  }

  lemma NothingNew<T>(s: State<T>, t: nat)
    requires MayGo(s, t)
    ensures var s' := Next(s, t, HomeStep(s.threads[t]));
            s'.count <= s.count && s'.queued == s.queued && |s'.threads| == |s.threads|
  {
  }

  ghost predicate AllHome<T>(s: State<T>) {
    forall t :: 0 <= t < |s.threads| ==> s.threads[t] == Available
  }

  lemma {:induction false} CanComeHome<T>(s: State<T>) returns (steps: seq<(nat, Step<T>)>)
    requires Inv(s) && Live(s)
    ensures var s' := Run(s, steps);
            AllHome(s') && Inv(s') && Live(s') && s'.count <= s.count && s'.queued == s.queued && |s'.threads| == |s.threads|
    decreases Remaining(s)
  {
    hide Inv, Live, Remaining, Next, CanStep;
    if AllHome(s) {
      steps := [];
    } else {
      var t :| 0 <= t < |s.threads| && s.threads[t] != Available;
      var u := SomebodyGoesOn(s, t);
      var step: Step<T> := HomeStep(s.threads[u]);
      Homewards(s, u);
      NothingNew(s, u);
      StepKeeps(s, u, step);
      StepKeepsLive(s, u, step);
      var more := CanComeHome(Next(s, u, step));
      steps := [(u, step)] + more;
      assert steps[1..] == more;
    }
  }

  lemma {:induction false} NobodyPending(threads: seq<Thread>, c: nat)
    requires forall t :: 0 <= t < |threads| ==> threads[t] == Available
    ensures Pending(threads, c) == 0
  {
    if threads != [] {
      NobodyPending(threads[..|threads| - 1], c);
    }
  }

  /** When everybody is home every phase that called somebody is complete, its tasks are done with,
      and the flag is down. */
  lemma HomeMeansComplete<T>(s: State<T>)
    requires Inv(s) && Live(s) && AllHome(s)
    ensures s.owner.None? && |s.items| == s.count
    ensures forall c :: 0 <= c < |s.phases| && s.phases[c].threadCount > 0 ==> s.phases[c].complete && s.phases[c].popped == s.phases[c].taskCount
  {
    hide Pending, Poppers;
    forall c | 0 <= c < |s.phases|
      ensures s.owner != Some(c)
      ensures s.phases[c].threadCount > 0 ==> s.phases[c].complete && s.phases[c].popped == s.phases[c].taskCount
    {
      assert PhaseOk(s, c) && PhaseLive(s, c);
      NobodyPending(s.threads, c);
    }
  }

  lemma {:induction false} RunKeepsLive<T>(s: State<T>, steps: seq<(nat, Step<T>)>)
    requires Inv(s) && Live(s)
    ensures Inv(Run(s, steps)) && Live(Run(s, steps))
    decreases |steps|
  {
    hide Inv, Live, Next, CanStep;
    if steps != [] {
      if CanStep(s, steps[0].0, steps[0].1) {
        StepKeeps(s, steps[0].0, steps[0].1);
        StepKeepsLive(s, steps[0].0, steps[0].1);
        RunKeepsLive(Next(s, steps[0].0, steps[0].1), steps[1..]);
      } else {
        RunKeepsLive(s, steps[1..]);
      }
    }
  }

  lemma BeginIsLive<T>(threads: nat)
    ensures Live(Begin<T>(threads))
  {
  }

  /** For any number of threads, any overlap of phases and any interleaving so far: some further
      steps bring every thread home, with every phase that called somebody complete, every claimed
      task taken and the flag for lifecycle work down. */
  lemma PhasesCanFinish<T>(threads: nat, steps: seq<(nat, Step<T>)>) returns (more: seq<(nat, Step<T>)>)
    ensures var s := Run(Run(Begin<T>(threads), steps), more);
            && AllHome(s) && s.owner.None? && |s.items| == s.count
            && forall c :: 0 <= c < |s.phases| && s.phases[c].threadCount > 0 ==> s.phases[c].complete && s.phases[c].popped == s.phases[c].taskCount
  {
    hide Run, AllHome, Inv, Live;
    BeginIsFine<T>(threads);
    BeginIsLive<T>(threads);
    RunKeepsLive(Begin<T>(threads), steps);
    more := CanComeHome(Run(Begin<T>(threads), steps));
    HomeMeansComplete(Run(Run(Begin<T>(threads), steps), more));
  }

  // ---------- All the work can be done ----------

  lemma {:induction false} RunAppend<T>(s: State<T>, a: seq<(nat, Step<T>)>, b: seq<(nat, Step<T>)>)
    ensures Run(s, a + b) == Run(Run(s, a), b)
    decreases |a|
  {
    hide Next, CanStep;
    if a == [] {
      assert a + b == b;
    } else {
      assert (a + b)[1..] == a[1..] + b;
      RunAppend(if CanStep(s, a[0].0, a[0].1) then Next(s, a[0].0, a[0].1) else s, a[1..], b);
    }
  }

  /** The first thread is called and claims everything that is queued. */
  function CallFirst<T>(threads: nat): (steps: seq<(nat, Step<T>)>) {
    [(0, StartPhase(seq(threads, _ => true))), (0, Prepare), (0, Acquire), (0, Claim)]
  }

  lemma FirstClaims<T>(s: State<T>)
    requires s.threads != [] && AllHome(s) && s.owner.None?
    ensures var s' := Run(s, CallFirst(|s.threads|));
            s'.count == 0 && s'.queued == s.queued && |s'.threads| == |s.threads|
  {
    var all: Step<T> := StartPhase(seq(|s.threads|, _ => true));
    var c := |s.phases|;
    var s1 := Next(s, 0, all);
    assert s1.threads[0] == Starting(c);
    var s2 := Next(s1, 0, Prepare);
    assert s2.threads[0] == Preparing(c) && s2.owner.None?;
    var s3 := Next(s2, 0, Acquire);
    var s4 := Next(s3, 0, Claim);
    hide Run;
    FourSteps(s, all, Prepare, Acquire, Claim);
  }

  lemma FourSteps<T>(s: State<T>, a: Step<T>, b: Step<T>, c: Step<T>, d: Step<T>)
    requires CanStep(s, 0, a) && CanStep(Next(s, 0, a), 0, b) && CanStep(Next(Next(s, 0, a), 0, b), 0, c)
    requires CanStep(Next(Next(Next(s, 0, a), 0, b), 0, c), 0, d)
    ensures Run(s, [(0, a), (0, b), (0, c), (0, d)]) == Next(Next(Next(Next(s, 0, a), 0, b), 0, c), 0, d)
  {
    hide CanStep, Next;
    var (s1, s2, s3) := (Next(s, 0, a), Next(Next(s, 0, a), 0, b), Next(Next(Next(s, 0, a), 0, b), 0, c));
    FirstOf(s, a, [(0, b), (0, c), (0, d)]);
    FirstOf(s1, b, [(0, c), (0, d)]);
    FirstOf(s2, c, [(0, d)]);
    FirstOf(s3, d, []);
    assert [(0, a)] + [(0, b), (0, c), (0, d)] == [(0, a), (0, b), (0, c), (0, d)];
    assert [(0, b)] + [(0, c), (0, d)] == [(0, b), (0, c), (0, d)];
    assert [(0, c)] + [(0, d)] == [(0, c), (0, d)] && [(0, d)] + [] == [(0, d)];
    NoSteps(Next(s3, 0, d));
    hide Run;
  }

  lemma FirstOf<T>(s: State<T>, step: Step<T>, rest: seq<(nat, Step<T>)>)
    requires CanStep(s, 0, step)
    ensures Run(s, [(0, step)] + rest) == Run(Next(s, 0, step), rest)
  {
    hide CanStep, Next;
    assert ([(0, step)] + rest)[1..] == rest;
  }

  lemma NoSteps<T>(s: State<T>)
    ensures Run(s, []) == s
  {
  }

  /** From any state that can be reached, with at least one thread, further steps start every
      lifecycle task that has been accepted and bring everybody home. */
  lemma EveryTaskCanBeStarted<T>(threads: nat, steps: seq<(nat, Step<T>)>) returns (more: seq<(nat, Step<T>)>)
    requires threads > 0
    ensures var (s, s') := (Run(Begin<T>(threads), steps), Run(Run(Begin<T>(threads), steps), more));
            AllHome(s') && s'.queued == s.queued && s'.taken == s.queued && s'.items == []
  {
    hide Run, Inv, Live, AllHome;
    BeginIsFine<T>(threads);
    BeginIsLive<T>(threads);
    RunKeepsLive(Begin<T>(threads), steps);
    var s := Run(Begin<T>(threads), steps);
    SameThreads(Begin<T>(threads), steps);
    var home := CanComeHome(s);
    var s1 := Run(s, home);
    HomeMeansComplete(s1);
    FirstClaims(s1);
    RunKeepsLive(s1, CallFirst(|s1.threads|));
    var s2 := Run(s1, CallFirst(|s1.threads|));
    var last := CanComeHome(s2);
    var s3 := Run(s2, last);
    HomeMeansComplete(s3);
    TakenInOrder(s3);
    RunAppend(s, home, CallFirst(|s1.threads|));
    RunAppend(s, home + CallFirst(|s1.threads|), last);
    more := home + CallFirst(|s1.threads|) + last;
  }

  lemma TakenInOrder<T>(s: State<T>)
    requires Inv(s) && |s.items| == s.count == 0
    ensures s.items == [] && s.taken == s.queued
  {
    assert s.taken + [] == s.taken;
  }

  lemma {:induction false} SameThreads<T>(s: State<T>, steps: seq<(nat, Step<T>)>)
    ensures |Run(s, steps).threads| == |s.threads|
    decreases |steps|
  {
    if steps != [] {
      SameThreads(if CanStep(s, steps[0].0, steps[0].1) then Next(s, steps[0].0, steps[0].1) else s, steps[1..]);
    }
  }

  /** A thread that scans takes an idle room, and no other, to tick it, and gives it back. */
  lemma RoomIsTicked<T>(s: State<T>, t: nat, room: nat)
    requires CanStep(s, t, ScanRoom(room))
    ensures var s' := Next(s, t, ScanRoom(room));
            if s.busy[room] then s' == s
            else
              && s'.threads[t] == Ticking(s.threads[t].phase, room) && s'.busy[room]
              && CanStep(s', t, TickDone) && Next(s', t, TickDone) == s
  {
    if !s.busy[room] {
      assert s.busy[room := true][room := false] == s.busy;
      assert s.threads[t := Ticking(s.threads[t].phase, room)][t := Scanning(s.threads[t].phase)] == s.threads;
    }
  }
}
