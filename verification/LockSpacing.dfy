/** How often a player's pieces can lock. Tick times need not increase: a straggling thread
    may deliver an older one. */
module LockSpacing {
  import opened Tetromino
  import opened Board
  import opened Timing
  import opened TickSpec

  function FixCount(tasks: seq<Task>): nat {
    if tasks == [] then 0
    else FixCount(tasks[..|tasks| - 1]) + if tasks[|tasks| - 1].Fix? then 1 else 0
  }

  lemma FixCountEmit(tasks: seq<Task>, t: Task)
    ensures FixCount(tasks + [t]) == FixCount(tasks) + if t.Fix? then 1 else 0
  {
    assert (tasks + [t])[..|tasks|] == tasks;
  }

  lemma {:induction false} FixCountAppend(tasks: seq<Task>, more: seq<Task>)
    requires forall i :: 0 <= i < |more| ==> !more[i].Fix?
    ensures FixCount(tasks + more) == FixCount(tasks)
  {
    if more == [] {
      assert tasks + more == tasks;
    } else {
      var init, last := more[..|more| - 1], more[|more| - 1];
      assert tasks + more == (tasks + init) + [last];
      FixCountEmit(tasks + init, last);
      FixCountAppend(tasks, init);
    }
  }

  // ---------- One tick ----------

  /** Both locking inputs are barred until the time `bar`. */
  predicate Barred(t: Timers, bar: int) {
    t.down >= bar && t.drop >= bar
  }

  /** In the middle of a tick that began barred until `bar`: either nothing has locked, or one
      piece has, no earlier than `bar`, and the next lock is at least 50 ms away. */
  ghost predicate MidTick(s: State, bar: int, now: int) {
    && s.WellFormed()
    && FixCount(s.tasks) <= 1
    && (FixCount(s.tasks) == 0 ==> Barred(s.timers, bar))
    && (FixCount(s.tasks) == 1 ==> now >= bar && Barred(s.timers, now + MOVE_TIMEOUT_MS))
  }

  lemma LockStep(r: State, now: int, bar: int)
    requires r.WellFormed() && FixCount(r.tasks) == 1 && now >= bar
    ensures MidTick(AfterFix(r, now), bar, now)
  {
    hide FixCount, Filled, Cleared, FullRows, HiddenEmpty;
    var rows := FullRows(Locked(r).board, TOTAL_HEIGHT);
    FixCountAppend(r.tasks, ClearTasks(rows));
    FixCountEmit(r.tasks + ClearTasks(rows), GameOver);
  }

  lemma InputStep(s: State, m: Input, now: int, bar: int)
    requires MidTick(s, bar, now)
    ensures MidTick(Handled(s, m, now), bar, now)
  {
    hide AfterFix, MoveInput, IsValid, Landing, FixCount;
    var (r, result) := MoveInput(s, m, now);
    MoveEffect(s, m, now);
    if result.Moved? {
      FixCountEmit(s.tasks, Move(TaskOf(m)));
    } else if result.Fixed? {
      FixCountEmit(s.tasks, Fix(r.piece.moved.x, r.piece.moved.y));
      LockStep(r, now, bar);
    }
  }

  lemma {:induction false} InputsStep(s: State, i: int, now: int, bar: int)
    requires s.WellFormed() && -1 <= i < |s.moves| && MidTick(s, bar, now)
    ensures MidTick(HandledFrom(s, i, now), bar, now)
    decreases i + 1
  {
    hide Handled, MidTick;
    if i >= 0 {
      if s.moves[i] {
        InputStep(s, InputOf(i), now, bar);
        InputsStep(Handled(s, InputOf(i), now), i - 1, now, bar);
      } else {
        InputsStep(s, i - 1, now, bar);
      }
    }
  }

  lemma {:induction false} GarbageLocksNothing(s: State, holes: seq<int>)
    requires s.WellFormed() && AreHoles(holes)
    ensures var s' := GarbageAdded(s, holes);
            FixCount(s'.tasks) == FixCount(s.tasks) && s'.timers == s.timers
    decreases |holes|
  {
    if holes != [] {
      var s1 := LineAdded(s, holes[0]);
      FixCountEmit(s.tasks, AddLine(holes[0]));
      FixCountEmit(s1.tasks, GameOver);
      if HiddenEmpty(s1.board) {
        FixCountEmit(s1.tasks, Move(MoveUp));
        GarbageLocksNothing(Lifted(s1), holes[1..]);
      }
    }
  }

  lemma RestLocksNothing(ticked: State, i: TickInput)
    requires ticked.WellFormed() && AreHoles(i.holes)
    ensures var s := Attacked(ticked, i);
            FixCount(s.tasks) == FixCount(ticked.tasks) && s.timers == ticked.timers
  {
    hide GarbageAdded, FixCount;
    GarbageLocksNothing(ticked.(pending := ticked.pending + i.attacks), i.holes);
  }

  /** The room's closing tasks are no locks either. */
  lemma ClosingLocksNothing(s: State, i: TickInput)
    requires s.WellFormed()
    ensures FixCount(Spawned(s, i.kind).tasks) == FixCount(s.tasks) && Spawned(s, i.kind).timers == s.timers
    ensures FixCount(OverChecked(s).tasks) == FixCount(s.tasks) && OverChecked(s).timers == s.timers
    ensures FixCount(Emitted(s, GameEnd(i.winner)).tasks) == FixCount(s.tasks)
  {
    hide FixCount;
    FixCountEmit(s.tasks, Spawn);
    FixCountEmit(s.tasks, GameOver);
    FixCountEmit(s.tasks, GameEnd(i.winner));
  }

  lemma TickedStep(s: State, inputs: seq<int>, now: int, bar: int)
    requires IsAtRest(s) && Barred(s.timers, bar)
    ensures MidTick(Ticked(s.(inputs := s.inputs + inputs), now), bar, now)
  {
    hide HandledFrom;
    var prepared := Prepared(s.(inputs := s.inputs + inputs), now);
    InputsStep(prepared, |prepared.moves| - 1, now, bar);
  }

  /** The bar after a tick with `n` locks. */
  function NextBar(bar: int, n: nat, now: int): int {
    if n == 0 then bar else now + MOVE_TIMEOUT_MS
  }

  /** A tick locks at most one piece, and only when its time has reached the bar. */
  lemma TickStep(g: PlayerGame, i: TickInput, bar: int)
    requires IsAtRest(g.state) && FitsInput(g.state, i) && Barred(g.state.timers, bar)
    ensures var n := FixCount(TickOf(g, i).tasks);
            n <= 1 && (n == 1 ==> i.now >= bar) && Barred(PlayerTick(g, i).state.timers, NextBar(bar, n, i.now))
    ensures IsAtRest(PlayerTick(g, i).state)
  {
    assert g.state.WellFormed();
    hide Ticked, Attacked, Spawned, OverChecked, FitsInput;
    var ticked := Ticked(g.state.(inputs := g.state.inputs + i.inputs), i.now);
    TickedStep(g.state, i.inputs, i.now, bar);
    if g.playing {
      RestLocksNothing(ticked, i);
      ClosingLocksNothing(Attacked(ticked, i), i);
    }
  }

  // ---------- Runs ----------

  /** The tick times of the locks of a run, in order. */
  function LockTimes(g: PlayerGame, run: seq<TickInput>): seq<int>
    requires g.state.WellFormed() && FitsRun(g, run)
    decreases |run|
  {
    if run == [] then []
    else
      var rest := LockTimes(PlayerTick(g, run[0]), run[1..]);
      if FixCount(TickOf(g, run[0]).tasks) == 0 then rest else [run[0].now] + rest
  }

  /** Every number is at least 50 more than the one before it, and the first at least `bar`. */
  predicate Spaced(times: seq<int>, bar: int) {
    times == [] || (times[0] >= bar && Spaced(times[1..], times[0] + MOVE_TIMEOUT_MS))
  }

  lemma SpacedCons(time: int, rest: seq<int>, bar: int)
    requires time >= bar && Spaced(rest, time + MOVE_TIMEOUT_MS)
    ensures Spaced([time] + rest, bar)
  {
    assert ([time] + rest)[1..] == rest;
  }

  /** Over any run, with tick times in any order, two locks are at least 50 ms apart. */
  lemma {:induction false} LocksAreSpaced(g: PlayerGame, run: seq<TickInput>, bar: int)
    requires IsAtRest(g.state) && FitsRun(g, run) && Barred(g.state.timers, bar)
    ensures Spaced(LockTimes(g, run), bar)
    decreases |run|
  {
    if run == [] {
      assert LockTimes(g, run) == [];
      return;
    }
    assert g.state.WellFormed();
    hide TickOf, PlayerTick, IsAtRest, Barred, FixCount, FitsInput, Spaced;
    var n := FixCount(TickOf(g, run[0]).tasks);
    TickStep(g, run[0], bar);
    var rest := LockTimes(PlayerTick(g, run[0]), run[1..]);
    LocksAreSpaced(PlayerTick(g, run[0]), run[1..], NextBar(bar, n, run[0].now));
    if n != 0 {
      SpacedCons(run[0].now, rest, bar);
    }
  }

  /** How many of the numbers lie in [from, from + length]. */
  function CountWithin(times: seq<int>, from: int, length: nat): nat {
    if times == [] then 0
    else (if from <= times[0] <= from + length then 1 else 0) + CountWithin(times[1..], from, length)
  }

  lemma {:induction false} SpacedCount(times: seq<int>, bar: int, from: int, length: nat)
    requires Spaced(times, bar)
    ensures CountWithin(times, from, length) > 0 ==>
              (if bar < from then from else bar) + MOVE_TIMEOUT_MS * (CountWithin(times, from, length) - 1) <= from + length
  {
    if times != [] {
      SpacedCount(times[1..], times[0] + MOVE_TIMEOUT_MS, from, length);
    }
  }

  /** In any T milliseconds at most T/50 + 1 locks of a game have their tick times. */
  lemma LockRate(g: PlayerGame, run: seq<TickInput>, from: int, length: nat)
    requires IsAtRest(g.state) && FitsRun(g, run)
    ensures CountWithin(LockTimes(g, run), from, length) <= length / MOVE_TIMEOUT_MS + 1
  {
    var t := g.state.timers;
    var bar := if t.down < t.drop then t.down else t.drop;
    LocksAreSpaced(g, run, bar);
    SpacedCount(LockTimes(g, run), bar, from, length);
  }

  /** The same spacing, for any two locks of a run. */
  lemma {:induction false} AnyTwoLocks(times: seq<int>, bar: int, i: nat, j: nat)
    requires Spaced(times, bar) && i < j < |times|
    ensures times[j] >= times[i] + MOVE_TIMEOUT_MS
    decreases i, j
  {
    if i > 0 {
      AnyTwoLocks(times[1..], times[0] + MOVE_TIMEOUT_MS, i - 1, j - 1);
    } else if j > 1 {
      AnyTwoLocks(times[1..], times[0] + MOVE_TIMEOUT_MS, 0, j - 1);
    }
  }
}
