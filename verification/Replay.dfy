/** The client's board, rebuilt from packets alone, is the server's board. */
module Replay {
  import opened Tetromino
  import opened Board
  import opened Timing
  import opened TickSpec
  import opened Packets
  import opened TickInvariant
  import CB = ClientBoard

  /** The same cells are occupied; the client's colours do not matter. */
  ghost predicate Shows(grid: CB.Grid, b: Board) {
    && |grid| == TOTAL_HEIGHT
    && (forall y :: 0 <= y < TOTAL_HEIGHT ==> |grid[y]| == BOARD_WIDTH)
    && (forall y, x :: 0 <= y < TOTAL_HEIGHT && 0 <= x < BOARD_WIDTH ==> (grid[y][x].Block? <==> b[y][x]))
  }

  function Shown(t: Tetromino): CB.Piece {
    CB.Piece(KeyOf(t.kind), t.moved.x, t.moved.y, t.shapeIndex)
  }

  /** The replica agrees with the server. While the server's piece is locked in and its
      successor has not appeared (`locked`), the client has no piece at all. */
  ghost predicate Mirrors(c: CB.Client, b: Board, t: Tetromino, locked: bool) {
    && Shows(c.grid, b)
    && t.WellFormed()
    && (if locked then c.current == None else c.current == Some(Shown(t)))
  }

  ghost predicate Ready(c: CB.Client) {
    c.current.Some? ==> c.current.value.Known()
  }

  lemma ShownIsKnown(t: Tetromino)
    requires t.WellFormed()
    ensures Shown(t).Known() && Shown(t).Blocks() == t.Cells()
    ensures Shown(t.Rotated()) == Shown(t).Rotated()
  {
    SameShapeTables(t.kind);
  }

  // ---------- One packet ----------

  lemma ShowsSetCell(grid: CB.Grid, b: Board, p: Position, key: char)
    requires Shows(grid, b) && InBounds(p)
    ensures CB.GridSet(grid, p, key).Some? && Shows(CB.GridSet(grid, p, key).value, SetCell(b, p))
  {
  }

  lemma {:induction false} ShowsFilled(grid: CB.Grid, b: Board, cells: seq<Position>, key: char)
    requires Shows(grid, b) && forall i :: 0 <= i < |cells| ==> InBounds(cells[i])
    ensures CB.GridFilled(grid, cells, key).Some? && Shows(CB.GridFilled(grid, cells, key).value, Filled(b, cells))
    decreases |cells|
  {
    if cells != [] {
      ShowsSetCell(grid, b, cells[0], key);
      ShowsFilled(CB.GridSet(grid, cells[0], key).value, SetCell(b, cells[0]), cells[1..], key);
    }
  }

  /** A lock: the client takes the position from the packet, so it does not matter that a hard
      drop sent no moves. */
  lemma FixMirrors(c: CB.Client, b: Board, before: Tetromino, t: Tetromino, id: int)
    requires Mirrors(c, b, before, false)
    requires t.WellFormed() && AllInBounds(t) && t.kind == before.kind && t.shapeIndex == before.shapeIndex
    ensures Ready(c)
    ensures var r := CB.Applied(c, FixPacket(id, t.moved.x, t.moved.y));
            r.Some? && Mirrors(r.value, Filled(b, t.Cells()), t, true)
  {
    ShownIsKnown(before);
    ShownIsKnown(t);
    ShowsFilled(c.grid, b, t.Cells(), KeyOf(t.kind));
  }

  lemma MoveMirrors(c: CB.Client, b: Board, t: Tetromino, m: MoveType, id: int, locked: bool)
    requires Mirrors(c, b, t, locked)
    ensures Ready(c)
    ensures var r := CB.Applied(c, MovePacket(id, MoveCode(m)));
            r.Some? && Mirrors(r.value, b, MovedPiece(t, m), locked)
  {
    ShownIsKnown(t);
  }

  lemma ClearMirrors(c: CB.Client, b: Board, t: Tetromino, y: int, id: int, i: TickInput)
    requires Mirrors(c, b, t, true) && 0 <= y < TOTAL_HEIGHT
    ensures var r := CB.Applied(c, TaskPacket(ClearLine(y), id, i));
            r.Some? && Mirrors(r.value, RowRemoved(b, y), t, true)
  {
    var g: CB.Grid := CB.RowDeleted(c.grid, y).value;
    forall r, x | 0 <= r < TOTAL_HEIGHT && 0 <= x < BOARD_WIDTH
      ensures |g[r]| == BOARD_WIDTH && (g[r][x].Block? <==> RowRemoved(b, y)[r][x])
    {
      if 0 < r <= y {
        assert g[r] == c.grid[r - 1] && RowRemoved(b, y)[r] == b[r - 1];
      } else if r > y {
        assert g[r] == c.grid[r] && RowRemoved(b, y)[r] == b[r];
      }
    }
  }

  lemma AddMirrors(c: CB.Client, b: Board, t: Tetromino, hole: int, id: int, locked: bool)
    requires Mirrors(c, b, t, locked) && 0 <= hole < BOARD_WIDTH
    ensures Ready(c)
    ensures var r := CB.Applied(c, AddLinePacket(id, hole));
            r.Some? && Mirrors(r.value, PushedUp(b, hole), t, locked)
  {
    ShownIsKnown(t);
    var g: CB.Grid := CB.LineAppended(c.grid, hole).value;
    forall r, x | 0 <= r < TOTAL_HEIGHT && 0 <= x < BOARD_WIDTH
      ensures |g[r]| == BOARD_WIDTH && (g[r][x].Block? <==> PushedUp(b, hole)[r][x])
    {
      if r < TOTAL_HEIGHT - 1 {
        assert g[r] == c.grid[r + 1] && PushedUp(b, hole)[r] == b[r + 1];
      } else {
        assert g[r] == CB.GarbageLine(hole).value;
      }
    }
  }

  lemma SpawnMirrors(c: CB.Client, b: Board, t: Tetromino, id: int, i: TickInput, locked: bool)
    requires Mirrors(c, b, t, locked)
    ensures Ready(c)
    ensures var r := CB.Applied(c, TaskPacket(Spawn, id, i));
            r.Some? && Mirrors(r.value, b, NewTetromino(i.kind, SPAWN_POSITION), false) &&
            r.value.nextKey == Some(KeyOf(i.next))
  {
    ShownIsKnown(t);
  }

  // ---------- A task list ----------

  /** What the client makes of a task list. */
  function Echo(c: CB.Client, tasks: seq<Task>, id: int, i: TickInput): (r: Option<CB.Client>)
    requires c.current.Some? ==> c.current.value.Known()
    ensures r.Some? && r.value.current.Some? ==> r.value.current.value.Known()
  {
    CB.Replayed(c, TaskPackets(tasks, id, i))
  }

  lemma EchoEmit(c: CB.Client, tasks: seq<Task>, t: Task, id: int, i: TickInput)
    requires Ready(c)
    ensures var before := Echo(c, tasks, id, i);
            Echo(c, tasks + [t], id, i) == if before.None? then None else CB.Applied(before.value, TaskPacket(t, id, i))
  {
    var packets := TaskPackets(tasks + [t], id, i);
    assert packets[..|tasks|] == TaskPackets(tasks, id, i);
  }

  /** Up to this point of the tick the replica has followed. */
  ghost predicate InStep(c: CB.Client, s: State, id: int, i: TickInput, locked: bool) {
    && Ready(c)
    && Echo(c, s.tasks, id, i).Some?
    && Mirrors(Echo(c, s.tasks, id, i).value, s.board, s.piece, locked)
  }

  lemma MoveInStep(c: CB.Client, s: State, m: MoveType, id: int, i: TickInput, locked: bool)
    requires InStep(c, s, id, i, locked)
    ensures InStep(c, Emitted(s.(piece := MovedPiece(s.piece, m)), Move(m)), id, i, locked)
  {
    EchoEmit(c, s.tasks, Move(m), id, i);
    MoveMirrors(Echo(c, s.tasks, id, i).value, s.board, s.piece, m, id, locked);
  }

  lemma FixInStep(c: CB.Client, s: State, t: Tetromino, id: int, i: TickInput)
    requires InStep(c, s, id, i, false)
    requires t.WellFormed() && AllInBounds(t) && t.kind == s.piece.kind && t.shapeIndex == s.piece.shapeIndex
    ensures InStep(c, Emitted(s.(piece := t, board := Filled(s.board, t.Cells())), Fix(t.moved.x, t.moved.y)), id, i, true)
  {
    EchoEmit(c, s.tasks, Fix(t.moved.x, t.moved.y), id, i);
    FixMirrors(Echo(c, s.tasks, id, i).value, s.board, s.piece, t, id);
  }

  lemma GameOverInStep(c: CB.Client, s: State, id: int, i: TickInput, locked: bool)
    requires InStep(c, s, id, i, locked)
    ensures InStep(c, OverChecked(s), id, i, locked)
    ensures InStep(c, Emitted(s, GameOver), id, i, locked)
  {
    EchoEmit(c, s.tasks, GameOver, id, i);
  }

  lemma ClearInStep(c: CB.Client, s: State, y: int, id: int, i: TickInput)
    requires InStep(c, s, id, i, true) && 0 <= y < TOTAL_HEIGHT
    ensures InStep(c, Emitted(s.(board := RowRemoved(s.board, y)), ClearLine(y)), id, i, true)
  {
    EchoEmit(c, s.tasks, ClearLine(y), id, i);
    ClearMirrors(Echo(c, s.tasks, id, i).value, s.board, s.piece, y, id, i);
  }

  /** The state after the first rows have been cleared. */
  function ClearedTo(s: State, y: nat): State
    requires HIDDEN_HEIGHT <= y <= TOTAL_HEIGHT
  {
    s.(board := ClearedAbove(s.board, y), tasks := s.tasks + ClearTasks(FullRows(s.board, y)))
  }

  lemma ClearedToStep(s: State, y: nat)
    requires HIDDEN_HEIGHT < y <= TOTAL_HEIGHT
    ensures var before := ClearedTo(s, y - 1);
            ClearedTo(s, y) ==
              if IsFull(s.board[y - 1]) then Emitted(before.(board := RowRemoved(before.board, y - 1)), ClearLine(y - 1))
              else before
  {
    ClearedAboveStep(s.board, y - 1);
    var rows := FullRows(s.board, y - 1);
    if IsFull(s.board[y - 1]) {
      assert ClearTasks(rows + [y - 1]) == ClearTasks(rows) + [ClearLine(y - 1)];
      assert s.tasks + (ClearTasks(rows) + [ClearLine(y - 1)]) == s.tasks + ClearTasks(rows) + [ClearLine(y - 1)];
    }
  }

  /** Several cleared rows, replayed one by one, give the board with all of them gone. */
  lemma {:induction false} ClearsInStep(c: CB.Client, s: State, y: nat, id: int, i: TickInput)
    requires HIDDEN_HEIGHT <= y <= TOTAL_HEIGHT && InStep(c, s, id, i, true)
    ensures InStep(c, ClearedTo(s, y), id, i, true)
  {
    if y == HIDDEN_HEIGHT {
      assert ClearedAbove(s.board, y) == s.board;
      assert ClearTasks(FullRows(s.board, y)) == [];
      assert ClearedTo(s, y) == s;
    } else {
      hide InStep, ClearedTo, FullRows;
      ClearsInStep(c, s, y - 1, id, i);
      ClearedToStep(s, y);
      if IsFull(s.board[y - 1]) {
        ClearInStep(c, ClearedTo(s, y - 1), y - 1, id, i);
      }
    }
  }

  // ---------- The inputs of a tick ----------

  /** `InStep` looks at the board, the piece and the tasks only. */
  lemma InStepFrame(c: CB.Client, s: State, t: State, id: int, i: TickInput, locked: bool)
    requires InStep(c, s, id, i, locked) && t.board == s.board && t.piece == s.piece && t.tasks == s.tasks
    ensures InStep(c, t, id, i, locked)
  {
  }

  lemma LockInStep(c: CB.Client, s: State, r: State, now: int, id: int, i: TickInput)
    requires InStep(c, s, id, i, false)
    requires r.WellFormed() && AllInBounds(r.piece) && r.piece.kind == s.piece.kind && r.piece.shapeIndex == s.piece.shapeIndex
    requires r.board == s.board && r.tasks == s.tasks + [Fix(r.piece.moved.x, r.piece.moved.y)]
    ensures InStep(c, AfterFix(r, now), id, i, true)
  {
    FixInStep(c, s, r.piece, id, i);
    var timers := r.timers.Recorded(DOWN, now).DownRestarted(now).Recorded(DROP, now);
    var locked := Locked(r).(timers := timers);
    InStepFrame(c, Emitted(s.(piece := r.piece, board := Filled(s.board, r.piece.Cells())), Fix(r.piece.moved.x, r.piece.moved.y)),
      locked, id, i, true);
    ClearsInStep(c, locked, TOTAL_HEIGHT, id, i);
    InStepFrame(c, ClearedTo(locked, TOTAL_HEIGHT), LinesCleared(locked), id, i, true);
    GameOverInStep(c, LinesCleared(locked), id, i, true);
  }

  lemma LockHasFix(r: State, now: int)
    requires r.WellFormed() && HasFix(r.tasks)
    ensures HasFix(AfterFix(r, now).tasks)
  {
    var rows := FullRows(Locked(r).board, TOTAL_HEIGHT);
    HasFixAppend(r.tasks, ClearTasks(rows));
    HasFixAppend(r.tasks + ClearTasks(rows), [GameOver]);
  }

  lemma InputInStep(c: CB.Client, s: State, m: Input, now: int, cells: int, id: int, i: TickInput)
    requires MidTick(s, now, cells) && InStep(c, s, id, i, HasFix(s.tasks))
    ensures InStep(c, Handled(s, m, now), id, i, HasFix(Handled(s, m, now).tasks))
  {
    hide MoveInput, AfterFix, InStep;
    var (r, result) := MoveInput(s, m, now);
    MoveEffect(s, m, now);
    if result.Moved? {
      MoveInStep(c, s, TaskOf(m), id, i, HasFix(s.tasks));
      HasFixAppend(s.tasks, [Move(TaskOf(m))]);
      InStepFrame(c, Emitted(s.(piece := MovedPiece(s.piece, TaskOf(m))), Move(TaskOf(m))), r, id, i, HasFix(s.tasks));
    } else if result.Fixed? {
      LockInStep(c, s, r, now, id, i);
      assert r.tasks[|s.tasks|].Fix?;
      LockHasFix(r, now);
    }
  }

  lemma {:induction false} InputsInStep(c: CB.Client, s: State, k: int, now: int, cells: int, id: int, i: TickInput)
    requires s.WellFormed() && -1 <= k < |s.moves|
    requires MidTick(s, now, cells) && InStep(c, s, id, i, HasFix(s.tasks))
    ensures InStep(c, HandledFrom(s, k, now), id, i, HasFix(HandledFrom(s, k, now).tasks))
    decreases k + 1
  {
    if k >= 0 {
      hide Handled, InStep, MidTick;
      if s.moves[k] {
        InputKeeps(s, InputOf(k), now, cells);
        InputInStep(c, s, InputOf(k), now, cells, id, i);
        InputsInStep(c, Handled(s, InputOf(k), now), k - 1, now, cells, id, i);
      } else {
        InputsInStep(c, s, k - 1, now, cells, id, i);
      }
    }
  }

  // ---------- Garbage ----------

  lemma LineInStep(c: CB.Client, s: State, hole: int, id: int, i: TickInput)
    requires s.WellFormed() && 0 <= hole < BOARD_WIDTH && InStep(c, s, id, i, HasFix(s.tasks))
    ensures var s' := LineAdded(s, hole);
            InStep(c, s', id, i, HasFix(s'.tasks)) && InStep(c, Emitted(s', GameOver), id, i, HasFix(Emitted(s', GameOver).tasks))
  {
    EchoEmit(c, s.tasks, AddLine(hole), id, i);
    AddMirrors(Echo(c, s.tasks, id, i).value, s.board, s.piece, hole, id, HasFix(s.tasks));
    HasFixAppend(s.tasks, [AddLine(hole)]);
    var s' := LineAdded(s, hole);
    GameOverInStep(c, s', id, i, HasFix(s'.tasks));
    HasFixAppend(s'.tasks, [GameOver]);
  }

  lemma LiftInStep(c: CB.Client, s: State, id: int, i: TickInput)
    requires s.WellFormed() && InStep(c, s, id, i, HasFix(s.tasks))
    ensures InStep(c, Lifted(s), id, i, HasFix(Lifted(s).tasks))
  {
    MoveInStep(c, s, MoveUp, id, i, HasFix(s.tasks));
    HasFixAppend(s.tasks, [Move(MoveUp)]);
  }

  lemma {:induction false} GarbageInStep(c: CB.Client, s: State, holes: seq<int>, id: int, i: TickInput)
    requires s.WellFormed() && AreHoles(holes) && InStep(c, s, id, i, HasFix(s.tasks))
    ensures InStep(c, GarbageAdded(s, holes), id, i, HasFix(GarbageAdded(s, holes).tasks))
    decreases |holes|
  {
    if holes != [] {
      hide InStep, LineAdded, Lifted;
      var s1 := LineAdded(s, holes[0]);
      LineInStep(c, s, holes[0], id, i);
      if HiddenEmpty(s1.board) {
        LiftInStep(c, s1, id, i);
        GarbageInStep(c, Lifted(s1), holes[1..], id, i);
      }
    }
  }

  // ---------- The whole tick ----------

  lemma TickedInStep(c: CB.Client, s: State, id: int, i: TickInput)
    requires Playable(s)
    requires Ready(c) && Mirrors(c, s.board, s.piece, false)
    ensures var ticked := Ticked(s.(inputs := s.inputs + i.inputs), i.now);
            InStep(c, ticked, id, i, HasFix(ticked.tasks))
  {
    assert s.WellFormed();
    hide HandledFrom, Playable, MidTick, Mirrors;
    PreparedKeeps(s, i.inputs, i.now);
    var prepared := Prepared(s.(inputs := s.inputs + i.inputs), i.now);
    assert TaskPackets(prepared.tasks, id, i) == [];
    InputsInStep(c, prepared, |prepared.moves| - 1, i.now, Count(s.board), id, i);
  }

  lemma AttackedInStep(c: CB.Client, ticked: State, id: int, i: TickInput)
    requires ticked.WellFormed() && AreHoles(i.holes) && InStep(c, ticked, id, i, HasFix(ticked.tasks))
    ensures InStep(c, Attacked(ticked, i), id, i, HasFix(Attacked(ticked, i).tasks))
  {
    hide InStep, GarbageAdded, HasFix;
    var ready := ticked.(pending := ticked.pending + i.attacks);
    InStepFrame(c, ticked, ready, id, i, HasFix(ticked.tasks));
    GarbageInStep(c, ready, i.holes, id, i);
  }

  lemma PushedInStep(c: CB.Client, s: State, id: int, i: TickInput)
    requires Playable(s) && FitsInput(s, i)
    requires Ready(c) && Mirrors(c, s.board, s.piece, false)
    ensures InStep(c, Pushed(s, i), id, i, HasFix(Pushed(s, i).tasks))
  {
    hide Ticked, Attacked, InStep, Mirrors;
    TickedInStep(c, s, id, i);
    AttackedInStep(c, Ticked(s.(inputs := s.inputs + i.inputs), i.now), id, i);
  }

  lemma SpawnInStep(c: CB.Client, s: State, id: int, i: TickInput)
    requires s.WellFormed() && InStep(c, s, id, i, HasFix(s.tasks))
    ensures InStep(c, Spawned(s, i.kind), id, i, false)
  {
    EchoEmit(c, s.tasks, Spawn, id, i);
    SpawnMirrors(Echo(c, s.tasks, id, i).value, s.board, s.piece, id, i, HasFix(s.tasks));
  }

  lemma EndInStep(c: CB.Client, s: State, id: int, i: TickInput, locked: bool)
    requires InStep(c, s, id, i, locked)
    ensures InStep(c, Emitted(s, GameEnd(i.winner)), id, i, locked)
  {
    EchoEmit(c, s.tasks, GameEnd(i.winner), id, i);
  }

  /** The game stopped in this tick after a lock, so no new piece was dealt. */
  predicate StoppedAfterLock(s: State, i: TickInput)
    requires s.WellFormed() && FitsInput(s, i)
  {
    var pushed := Pushed(s, i);
    HasFix(pushed.tasks) && if i.single then !HiddenEmpty(pushed.board) else i.ended
  }

  /** One tick: replaying its packets raises no exception and leaves the client with the
      server's board and piece, whatever locks, cleared rows, garbage lines, upward shifts
      and moves of the already locked piece the tick contained, and even if it is the tick
      in which the player goes out. */
  lemma TickReplays(c: CB.Client, s: State, id: int, i: TickInput)
    requires Playable(s) && FitsInput(s, i)
    requires Ready(c) && Mirrors(c, s.board, s.piece, false)
    ensures var r := Echo(c, Played(s, i).tasks, id, i);
            r.Some? && Mirrors(r.value, Played(s, i).board, Played(s, i).piece, StoppedAfterLock(s, i))
  {
    assert s.WellFormed();
    hide Pushed, Playable, Mirrors;
    var pushed := Pushed(s, i);
    PushedInStep(c, s, id, i);
    if i.single {
      if HiddenEmpty(pushed.board) {
        SpawnInStep(c, pushed, id, i);
      } else {
        GameOverInStep(c, pushed, id, i, HasFix(pushed.tasks));
      }
    } else if i.ended {
      EndInStep(c, pushed, id, i, HasFix(pushed.tasks));
    } else {
      SpawnInStep(c, pushed, id, i);
    }
  }

  // ---------- Runs ----------

  /** The client after all packets of a run. */
  function RunEcho(c: CB.Client, g: PlayerGame, run: seq<TickInput>, id: int): Option<CB.Client>
    requires c.current.Some? ==> c.current.value.Known()
    requires g.state.WellFormed() && FitsRun(g, run)
    decreases |run|
  {
    if run == [] then Some(c)
    else match Echo(c, TickOf(g, run[0]).tasks, id, run[0])
      case None => None
      case Some(c') => RunEcho(c', PlayerTick(g, run[0]), run[1..], id)
  }

  /** The replica refines the engine: after any run of ticks that leaves the player playing,
      the client shows exactly the server's occupied cells and the server's piece. */
  lemma {:induction false} RunReplays(c: CB.Client, g: PlayerGame, run: seq<TickInput>, id: int)
    requires g.playing && Playable(g.state)
    requires Ready(c) && Mirrors(c, g.state.board, g.state.piece, false)
    requires FitsRun(g, run) && GoesOn(run) && AfterRun(g, run).playing
    ensures var r := RunEcho(c, g, run, id);
            var s := AfterRun(g, run).state;
            r.Some? && Mirrors(r.value, s.board, s.piece, false)
    decreases |run|
  {
    hide Played, Mirrors, FitsInput, CB.Replayed, Echo, StoppedAfterLock, IsOver, Ticked;
    if run != [] {
      var g' := PlayerTick(g, run[0]);
      OutStaysOut(g', run[1..]);
      TickReplays(c, g.state, id, run[0]);
      TickKeepsPlayable(g.state, run[0]);
      NoStopWhilePlaying(g.state, run[0]);
      RunReplays(Echo(c, Played(g.state, run[0]).tasks, id, run[0]).value, g', run[1..], id);
    }
  }

  lemma NoStopWhilePlaying(s: State, i: TickInput)
    requires s.WellFormed() && FitsInput(s, i) && (i.single || !i.ended) && !IsOver(Played(s, i).tasks)
    ensures !StoppedAfterLock(s, i)
  {
    hide Pushed;
    if i.single {
      GameOverOnlyEnds(Pushed(s, i).tasks);
    }
  }

  /** The replica at the start of a game. */
  function Opening(kind: Kind): CB.Client {
    CB.Client(CB.EmptyGrid(), Some(Shown(NewTetromino(kind, SPAWN_POSITION))), None)
  }

  lemma OpeningMirrors(kind: Kind, now: int)
    ensures var s := Started(kind, now);
            Opening(kind).current.value.Known() && Ready(Opening(kind)) && Mirrors(Opening(kind), s.board, s.piece, false)
  {
    ShownIsKnown(NewTetromino(kind, SPAWN_POSITION));
  }

  /** A game from its start: the room spawns the first piece on both sides. */
  lemma GameReplays(kind: Kind, now: int, run: seq<TickInput>, id: int)
    requires FitsRun(PlayerGame(Started(kind, now), true), run) && GoesOn(run)
    requires AfterRun(PlayerGame(Started(kind, now), true), run).playing
    ensures var s := AfterRun(PlayerGame(Started(kind, now), true), run).state;
            Opening(kind).current.value.Known() &&
            var r := RunEcho(Opening(kind), PlayerGame(Started(kind, now), true), run, id);
            r.Some? && Mirrors(r.value, s.board, s.piece, false)
  {
    OpeningMirrors(kind, now);
    hide RunEcho, AfterRun, FitsRun, Mirrors, Opening, Started, Playable, Ready;
    StartedIsPlayable(kind, now);
    RunReplays(Opening(kind), PlayerGame(Started(kind, now), true), run, id);
  }
}
