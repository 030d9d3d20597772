/** What every tick keeps true of a player who is still playing, and what a tick can cost. */
module TickInvariant {
  import opened Tetromino
  import opened Board
  import opened Timing
  import opened TickSpec

  /** A player between two ticks of a game: nothing in the hidden rows, no full visible row,
      and a piece on four free cells of the board. */
  ghost predicate Playable(s: State) {
    && IsAtRest(s)
    && HiddenEmpty(s.board)
    && NoFullVisibleRow(s.board)
    && IsValid(s.board, s.piece)
  }

  // ---------- Cells gained and lost, bytes sent ----------

  /** What a task does to the number of filled cells. */
  function Gain(t: Task): int {
    match t
    case Fix(_, _) => 4
    case AddLine(_) => 9
    case ClearLine(_) => -10
    case _ => 0
  }

  function Net(tasks: seq<Task>): int {
    if tasks == [] then 0 else Net(tasks[..|tasks| - 1]) + Gain(tasks[|tasks| - 1])
  }

  lemma NetEmit(tasks: seq<Task>, t: Task)
    ensures Net(tasks + [t]) == Net(tasks) + Gain(t)
  {
    assert (tasks + [t])[..|tasks|] == tasks;
  }

  lemma {:induction false} NetAppend(a: seq<Task>, b: seq<Task>)
    ensures Net(a + b) == Net(a) + Net(b)
  {
    if b == [] {
      assert a + b == a;
    } else {
      var init, last := b[..|b| - 1], b[|b| - 1];
      assert a + b == (a + init) + [last];
      NetEmit(a + init, last);
      NetAppend(a, init);
    }
  }

  lemma {:induction false} NetClears(rows: seq<int>)
    ensures Net(ClearTasks(rows)) == -10 * |rows|
  {
    if rows != [] {
      var n := |rows| - 1;
      assert ClearTasks(rows)[..n] == ClearTasks(rows[..n]);
      NetClears(rows[..n]);
    }
  }

  // ---------- Inputs ----------

  /** The state in the middle of the inputs of a tick that began with `cells` filled cells. */
  ghost predicate MidTick(s: State, now: int, cells: int) {
    && s.WellFormed()
    && AllInBounds(s.piece)
    && NoFullVisibleRow(s.board)
    && (IsOver(s.tasks) <==> !HiddenEmpty(s.board))
    && (if HasFix(s.tasks) then s.timers.drop > now && s.timers.down > now else IsValid(s.board, s.piece))
    && (!HasFix(s.tasks) ==> HiddenEmpty(s.board))
    && Count(s.board) == cells + Net(s.tasks)
  }

  lemma HasFixAppend(a: seq<Task>, b: seq<Task>)
    ensures HasFix(a + b) <==> HasFix(a) || HasFix(b)
  {
    if i :| 0 <= i < |a| && a[i].Fix? {
      assert (a + b)[i].Fix?;
    }
    if i :| 0 <= i < |b| && b[i].Fix? {
      assert (a + b)[|a| + i].Fix?;
    }
  }

  /** A piece is four columns wide at most, so it cannot fill a row that was empty. */
  lemma LockFillsNoEmptyRow(b: Board, t: Tetromino, y: int)
    requires t.WellFormed() && IsValid(b, t)
    requires 0 <= y < TOTAL_HEIGHT && forall x :: 0 <= x < BOARD_WIDTH ==> !b[y][x]
    ensures !IsFull(Filled(b, t.Cells())[y])
  {
    var x := if t.moved.x + 3 < BOARD_WIDTH - 1 then BOARD_WIDTH - 1 else 0;
    var cells := t.Cells();
    forall i | 0 <= i < 4
      ensures cells[i] != Position(x, y)
    {
      assert InBounds(cells[i]) && InBounds(cells[0]);
    }
    assert !Occupied(b, Position(x, y));
    assert !Occupied(Filled(b, cells), Position(x, y));
  }

  /** Increasing numbers from a window of four: at most four of them. */
  lemma IncreasingInWindow(rows: seq<int>, low: int, n: nat)
    requires n < |rows|
    requires forall i, j :: 0 <= i < j < |rows| ==> rows[i] < rows[j]
    requires forall i :: 0 <= i < |rows| ==> rows[i] >= low
    ensures rows[n] >= low + n
  {
    if n > 0 {
      IncreasingInWindow(rows, low, n - 1);
    }
  }

  /** One lock completes at most four rows. */
  lemma LockClearsAtMostFour(b: Board, t: Tetromino)
    requires t.WellFormed() && IsValid(b, t) && NoFullVisibleRow(b)
    ensures |FullRows(Filled(b, t.Cells()), TOTAL_HEIGHT)| <= 4
  {
    var b' := Filled(b, t.Cells());
    var rows := FullRows(b', TOTAL_HEIGHT);
    forall i | 0 <= i < |rows|
      ensures t.moved.y <= rows[i] <= t.moved.y + 3
    {
      var y := rows[i];
      var x :| 0 <= x < BOARD_WIDTH && !b[y][x];
      assert Occupied(b', Position(x, y)) && !Occupied(b, Position(x, y));
      var k :| 0 <= k < 4 && t.Cells()[k] == Position(x, y);
    }
    if |rows| > 4 {
      IncreasingInWindow(rows, t.moved.y, 4);
    }
  }

  lemma LockKeepsBoard(b: Board, t: Tetromino)
    requires t.WellFormed() && HiddenEmpty(b) && NoFullVisibleRow(b) && IsValid(b, t)
    ensures var b' := Filled(b, t.Cells());
            NoFullVisibleRow(Cleared(b')) &&
            Count(Cleared(b')) == Count(b) + 4 - 10 * |FullRows(b', TOTAL_HEIGHT)|
  {
    var b' := Filled(b, t.Cells());
    FilledCount(b, t.Cells());
    ClearedCount(b');
    forall y | 0 <= y < HIDDEN_HEIGHT
      ensures !IsFull(b'[y])
    {
      LockFillsNoEmptyRow(b, t, y);
    }
    ClearedHasNoFullRow(b');
  }

  lemma ClearTasksOnlyCount(tasks: seq<Task>, rows: seq<int>)
    ensures var all := tasks + ClearTasks(rows);
            Net(all) == Net(tasks) - 10 * |rows| &&
            (HasFix(all) <==> HasFix(tasks)) && (IsOver(all) <==> IsOver(tasks))
  {
    NetAppend(tasks, ClearTasks(rows));
    NetClears(rows);
    HasFixAppend(tasks, ClearTasks(rows));
    assert GameOver !in ClearTasks(rows);
  }

  lemma GameOverOnlyEnds(tasks: seq<Task>)
    ensures var all := tasks + [GameOver];
            Net(all) == Net(tasks) && (HasFix(all) <==> HasFix(tasks)) && IsOver(all)
  {
    NetEmit(tasks, GameOver);
    HasFixAppend(tasks, [GameOver]);
    assert (tasks + [GameOver])[|tasks|] == GameOver;
  }

  lemma OverCheckKeeps(s: State, now: int, cells: int)
    requires s.WellFormed() && AllInBounds(s.piece) && NoFullVisibleRow(s.board)
    requires HasFix(s.tasks) && !IsOver(s.tasks) && s.timers.drop > now && s.timers.down > now
    requires Count(s.board) == cells + Net(s.tasks)
    ensures MidTick(OverChecked(s), now, cells)
  {
    GameOverOnlyEnds(s.tasks);
  }

  /** A lock: the cells of the piece are counted in, completed rows are counted out, and the
      game is over exactly when something is left in the hidden rows. */
  lemma LockKeeps(s: State, now: int, cells: int)
    requires s.WellFormed() && HiddenEmpty(s.board) && NoFullVisibleRow(s.board) && IsValid(s.board, s.piece)
    requires HasFix(s.tasks) && !IsOver(s.tasks)
    requires Count(s.board) == cells + Net(s.tasks) - 4
    ensures MidTick(AfterFix(s, now), now, cells)
  {
    hide Filled, Cleared, FullRows, Count, Net;
    LockKeepsBoard(s.board, s.piece);
    var rows := FullRows(Filled(s.board, s.piece.Cells()), TOTAL_HEIGHT);
    ClearTasksOnlyCount(s.tasks, rows);
    var timers := s.timers.Recorded(DOWN, now).DownRestarted(now).Recorded(DROP, now);
    OverCheckKeeps(LinesCleared(Locked(s).(timers := timers)), now, cells);
  }

  lemma MoveOnlyMoves(tasks: seq<Task>, m: MoveType)
    ensures var all := tasks + [Move(m)];
            Net(all) == Net(tasks) && (HasFix(all) <==> HasFix(tasks)) && (IsOver(all) <==> IsOver(tasks))
  {
    NetEmit(tasks, Move(m));
    HasFixAppend(tasks, [Move(m)]);
  }

  lemma FixShows(tasks: seq<Task>, x: int, y: int)
    ensures var all := tasks + [Fix(x, y)];
            Net(all) == Net(tasks) + 4 && HasFix(all) && (IsOver(all) <==> IsOver(tasks))
  {
    NetEmit(tasks, Fix(x, y));
    assert (tasks + [Fix(x, y)])[|tasks|].Fix?;
  }

  lemma InputKeeps(s: State, m: Input, now: int, cells: int)
    requires MidTick(s, now, cells)
    ensures MidTick(Handled(s, m, now), now, cells)
  {
    hide MoveInput, AfterFix, IsValid, HiddenEmpty, NoFullVisibleRow, Count, Net, HasFix;
    var (r, result) := MoveInput(s, m, now);
    MoveEffect(s, m, now);
    if result.Moved? {
      MoveOnlyMoves(s.tasks, TaskOf(m));
    } else if result.Fixed? {
      FixShows(s.tasks, r.piece.moved.x, r.piece.moved.y);
      LockKeeps(r, now, cells);
    }
  }

  lemma {:induction false} InputsKeep(s: State, i: int, now: int, cells: int)
    requires s.WellFormed() && -1 <= i < |s.moves| && MidTick(s, now, cells)
    ensures MidTick(HandledFrom(s, i, now), now, cells)
    decreases i + 1
  {
    if i >= 0 {
      if s.moves[i] {
        InputKeeps(s, InputOf(i), now, cells);
        InputsKeep(Handled(s, InputOf(i), now), i - 1, now, cells);
      } else {
        InputsKeep(s, i - 1, now, cells);
      }
    }
  }

  lemma PreparedKeeps(s: State, inputs: seq<int>, now: int)
    requires Playable(s)
    ensures MidTick(Prepared(s.(inputs := s.inputs + inputs), now), now, Count(s.board))
    ensures var p := Prepared(s.(inputs := s.inputs + inputs), now);
            p.board == s.board && p.piece == s.piece && p.tasks == []
  {
  }

  lemma TickKeeps(s: State, inputs: seq<int>, now: int)
    requires Playable(s)
    ensures MidTick(Ticked(s.(inputs := s.inputs + inputs), now), now, Count(s.board))
  {
    hide HandledFrom;
    PreparedKeeps(s, inputs, now);
    var prepared := Prepared(s.(inputs := s.inputs + inputs), now);
    InputsKeep(prepared, |prepared.moves| - 1, now, Count(s.board));
  }

  // ---------- Garbage ----------

  /** A single upward shift is enough for the piece to fit again after a garbage line. */
  lemma OneLiftIsEnough(b: Board, t: Tetromino, hole: int)
    requires t.WellFormed() && IsValid(b, t) && 0 <= hole < BOARD_WIDTH
    requires HiddenEmpty(PushedUp(b, hole)) && !IsValid(PushedUp(b, hole), t)
    ensures IsValid(PushedUp(b, hole), t.Shifted(0, -1))
  {
    var b' := PushedUp(b, hole);
    var cells, up := t.Cells(), t.Shifted(0, -1).Cells();
    var k :| 0 <= k < 4 && b'[cells[k].y][cells[k].x];
    assert cells[k].y >= HIDDEN_HEIGHT;
    forall i | 0 <= i < 4
      ensures InBounds(up[i]) && !b'[up[i].y][up[i].x]
    {
      assert InBounds(cells[i]) && !b[cells[i].y][cells[i].x];
      assert up[i] == Position(cells[i].x, cells[i].y - 1);
      assert cells[i].y >= cells[k].y - 3;
      assert b'[up[i].y] == b[cells[i].y];
    }
  }

  /** The state between two garbage lines while the game is not over. */
  ghost predicate MidGarbage(s: State, cells: int) {
    && s.WellFormed()
    && NoFullVisibleRow(s.board)
    && HiddenEmpty(s.board)
    && !IsOver(s.tasks)
    && (!HasFix(s.tasks) ==> IsValid(s.board, s.piece))
    && Count(s.board) == cells + Net(s.tasks)
  }

  /** A garbage line pushes at most row 5 into the hidden rows, and no row becomes full. */
  lemma PushKeepsRowsOpen(b: Board, hole: int)
    requires 0 <= hole < BOARD_WIDTH && NoFullVisibleRow(b)
    ensures NoFullVisibleRow(PushedUp(b, hole))
  {
    GarbageRowNotFull(hole);
    var b' := PushedUp(b, hole);
    forall y | HIDDEN_HEIGHT <= y < TOTAL_HEIGHT
      ensures !IsFull(b'[y])
    {
      if y < TOTAL_HEIGHT - 1 {
        assert b'[y] == b[y + 1];
      }
    }
  }

  lemma LineKeeps(s: State, hole: int, cells: int)
    requires MidGarbage(s, cells) && 0 <= hole < BOARD_WIDTH
    ensures HiddenEmpty(LineAdded(s, hole).board) ==> MidGarbage(Lifted(LineAdded(s, hole)), cells)
  {
    var s1 := LineAdded(s, hole);
    PushKeepsRowsOpen(s.board, hole);
    PushedUpCount(s.board, hole);
    NetEmit(s.tasks, AddLine(hole));
    HasFixAppend(s.tasks, [AddLine(hole)]);
    if HiddenEmpty(s1.board) && !IsValid(s1.board, s1.piece) {
      if !HasFix(s.tasks) {
        OneLiftIsEnough(s.board, s.piece, hole);
      }
      NetEmit(s1.tasks, Move(MoveUp));
      HasFixAppend(s1.tasks, [Move(MoveUp)]);
    }
  }

  lemma {:induction false} GarbageOnlyAppends(s: State, holes: seq<int>)
    requires s.WellFormed() && AreHoles(holes)
    ensures s.tasks <= GarbageAdded(s, holes).tasks
    decreases |holes|
  {
    if holes != [] {
      var s1 := LineAdded(s, holes[0]);
      if HiddenEmpty(s1.board) {
        GarbageOnlyAppends(Lifted(s1), holes[1..]);
      }
    }
  }

  lemma {:induction false} GarbageKeeps(s: State, holes: seq<int>, cells: int)
    requires MidGarbage(s, cells) && AreHoles(holes)
    ensures !IsOver(GarbageAdded(s, holes).tasks) ==> MidGarbage(GarbageAdded(s, holes), cells)
    decreases |holes|
  {
    if holes != [] {
      var s1 := LineAdded(s, holes[0]);
      LineKeeps(s, holes[0], cells);
      if HiddenEmpty(s1.board) {
        GarbageKeeps(Lifted(s1), holes[1..], cells);
      } else {
        assert Emitted(s1, GameOver).tasks[|s1.tasks|] == GameOver;
      }
    }
  }

  lemma AttackedKeeps(ticked: State, i: TickInput, cells: int)
    requires MidTick(ticked, i.now, cells) && AreHoles(i.holes)
    ensures var s := Attacked(ticked, i);
            !IsOver(s.tasks) ==> MidGarbage(s, cells)
  {
    hide GarbageAdded, Count, Net, HiddenEmpty, NoFullVisibleRow, IsValid, HasFix;
    var ready := ticked.(pending := ticked.pending + i.attacks);
    GarbageOnlyAppends(ready, i.holes);
    if !IsOver(ready.tasks) {
      GarbageKeeps(ready, i.holes, cells);
    }
  }

  /** Inputs and garbage together. */
  lemma PushedKeeps(s: State, i: TickInput)
    requires Playable(s) && FitsInput(s, i)
    ensures !IsOver(Pushed(s, i).tasks) ==> MidGarbage(Pushed(s, i), Count(s.board))
  {
    hide Ticked, Attacked;
    TickKeeps(s, i.inputs, i.now);
    AttackedKeeps(Ticked(s.(inputs := s.inputs + i.inputs), i.now), i, Count(s.board));
  }

  // ---------- The whole tick ----------

  /** A new piece always fits: its cells are in the hidden rows. */
  lemma SpawnFits(b: Board, kind: Kind)
    requires HiddenEmpty(b)
    ensures IsValid(b, NewTetromino(kind, SPAWN_POSITION))
  {
    var t := NewTetromino(kind, SPAWN_POSITION);
    forall i | 0 <= i < 4
      ensures InBounds(t.Cells()[i]) && !b[t.Cells()[i].y][t.Cells()[i].x]
    {
      assert 0 <= t.blocks[i].x <= 3 && 0 <= t.blocks[i].y <= 3;
    }
  }

  lemma EmptyBoardIsOpen()
    ensures HiddenEmpty(EmptyBoard()) && NoFullVisibleRow(EmptyBoard()) && Count(EmptyBoard()) == 0
  {
    hide Count;
    EmptyRowsCount(EmptyBoard());
    assert !EmptyRow()[0];
  }

  lemma StartedIsPlayable(kind: Kind, now: int)
    ensures Playable(Started(kind, now)) && Count(Started(kind, now).board) == 0
  {
    hide HiddenEmpty, NoFullVisibleRow, Count, IsValid, EmptyBoard, NewTetromino;
    EmptyBoardIsOpen();
    SpawnFits(EmptyBoard(), kind);
  }

  lemma SpawnKeeps(s: State, kind: Kind, cells: int)
    requires MidGarbage(s, cells)
    ensures var s' := Spawned(s, kind);
            IsValid(s'.board, s'.piece) && HiddenEmpty(s'.board) && NoFullVisibleRow(s'.board) &&
            Count(s'.board) == cells + Net(s'.tasks)
  {
    NetEmit(s.tasks, Spawn);
    SpawnFits(s.board, kind);
  }

  /** The last steps of a tick only add tasks, and none is lost on the way to the end. */
  lemma PlayedOver(pushed: State, i: TickInput)
    requires pushed.WellFormed() && (i.single || !i.ended)
    ensures IsOver(pushed.tasks) ==> IsOver(Spawned(pushed, i.kind).tasks)
    ensures IsOver(OverChecked(pushed).tasks) <== IsOver(pushed.tasks) || !HiddenEmpty(pushed.board)
  {
    GameOverOnlyEnds(pushed.tasks);
  }

  /** The tick invariant: a player who is still in the game after a tick is playable again,
      and the cells on the board are accounted for by the tick's tasks. */
  lemma TickKeepsPlayable(s: State, i: TickInput)
    requires Playable(s) && FitsInput(s, i) && (i.single || !i.ended)
    requires !IsOver(Played(s, i).tasks)
    ensures Playable(Reset(Played(s, i)))
    ensures Count(Played(s, i).board) == Count(s.board) + Net(Played(s, i).tasks)
  {
    var pushed := Pushed(s, i);
    PlayedOver(pushed, i);
    PushedKeeps(s, i);
    SpawnKeeps(pushed, i.kind, Count(s.board));
  }

  /** Over any run of ticks from the start of a game, a player who is still playing is
      playable, and the filled cells are four for every lock and nine for every garbage line
      less ten for every cleared row. */
  lemma {:induction false} RunInvariant(g: PlayerGame, run: seq<TickInput>)
    requires g.playing && Playable(g.state)
    requires FitsRun(g, run) && GoesOn(run) && AfterRun(g, run).playing
    ensures Playable(AfterRun(g, run).state)
    ensures Count(AfterRun(g, run).state.board) == Count(g.state.board) + Net(RunTasks(g, run))
    decreases |run|
  {
    hide Played, FitsInput, IsOver, Ticked;
    if run != [] {
      var g' := PlayerTick(g, run[0]);
      OutStaysOut(g', run[1..]);
      TickKeepsPlayable(g.state, run[0]);
      RunInvariant(g', run[1..]);
      NetAppend(TickOf(g, run[0]).tasks, RunTasks(g', run[1..]));
    }
  }

  lemma {:induction false} OutStaysOut(g: PlayerGame, run: seq<TickInput>)
    requires g.state.WellFormed() && FitsRun(g, run)
    ensures AfterRun(g, run).playing ==> g.playing
    decreases |run|
  {
    if run != [] {
      OutStaysOut(PlayerTick(g, run[0]), run[1..]);
    }
  }

  // ---------- Staying inside the board ----------

  /** What holds of every player of a running game, in the game or out of it. */
  ghost predicate Safe(g: PlayerGame) {
    && IsAtRest(g.state)
    && AllInBounds(g.state.piece)
    && (g.playing ==> Playable(g.state))
  }

  /** The room's game goes on after this tick, so the player will tick again. */
  predicate GameContinues(g: PlayerGame, i: TickInput)
    requires g.state.WellFormed() && FitsInput(g.state, i)
  {
    if i.single then g.playing && HiddenEmpty(Pushed(g.state, i).board) else !i.ended
  }

  lemma {:induction false} InputsStayInBounds(s: State, i: int, now: int)
    requires s.WellFormed() && -1 <= i < |s.moves| && AllInBounds(s.piece)
    ensures AllInBounds(HandledFrom(s, i, now).piece)
    decreases i + 1
  {
    hide MoveInput;
    if i >= 0 {
      MoveEffect(s, InputOf(i), now);
      InputsStayInBounds(if s.moves[i] then Handled(s, InputOf(i), now) else s, i - 1, now);
    }
  }

  lemma {:induction false} GarbageStaysInBounds(s: State, holes: seq<int>, cells: int)
    requires MidGarbage(s, cells) && AreHoles(holes)
    ensures !HasFix(s.tasks) ==>
              AllInBounds(GarbageAdded(s, holes).piece) && !HasFix(GarbageAdded(s, holes).tasks)
    decreases |holes|
  {
    if holes != [] {
      var s1 := LineAdded(s, holes[0]);
      LineKeeps(s, holes[0], cells);
      HasFixAppend(s.tasks, [AddLine(holes[0])]);
      HasFixAppend(s1.tasks, [GameOver]);
      HasFixAppend(s1.tasks, [Move(MoveUp)]);
      if HiddenEmpty(s1.board) {
        GarbageStaysInBounds(Lifted(s1), holes[1..], cells);
      }
    }
  }

  lemma PrefixHasFix(a: seq<Task>, b: seq<Task>)
    requires a <= b
    ensures HasFix(a) ==> HasFix(b)
  {
    assert forall k :: 0 <= k < |a| ==> a[k] == b[k];
  }

  lemma AttackedStaysInBounds(ticked: State, i: TickInput, cells: int)
    requires MidTick(ticked, i.now, cells) && AreHoles(i.holes)
    ensures HasFix(Attacked(ticked, i).tasks) || AllInBounds(Attacked(ticked, i).piece)
  {
    hide GarbageAdded, HasFix, NoFullVisibleRow, Count, Net;
    var ready := ticked.(pending := ticked.pending + i.attacks);
    GarbageOnlyAppends(ready, i.holes);
    PrefixHasFix(ticked.tasks, Attacked(ticked, i).tasks);
    if !HasFix(ticked.tasks) {
      GarbageStaysInBounds(ready, i.holes, cells);
    }
  }

  lemma SpawnInBounds(kind: Kind)
    ensures AllInBounds(NewTetromino(kind, SPAWN_POSITION))
  {
    var t := NewTetromino(kind, SPAWN_POSITION);
    forall i | 0 <= i < 4
      ensures InBounds(t.Cells()[i])
    {
      assert 0 <= t.blocks[i].x <= 3 && 0 <= t.blocks[i].y <= 3;
    }
  }

  /** No tick of a running game leaves a piece outside the board for the next one, not even
      for a player who is out, so `FixTetromino` never writes outside it. */
  lemma StaysInBounds(g: PlayerGame, i: TickInput)
    requires Safe(g) && FitsInput(g.state, i) && GameContinues(g, i)
    ensures Safe(PlayerTick(g, i))
  {
    hide HandledFrom, Attacked;
    var begun := g.state.(inputs := g.state.inputs + i.inputs);
    var prepared := Prepared(begun, i.now);
    InputsStayInBounds(prepared, |prepared.moves| - 1, i.now);
    if g.playing {
      PreparedKeeps(g.state, i.inputs, i.now);
      InputsKeep(prepared, |prepared.moves| - 1, i.now, Count(g.state.board));
      AttackedStaysInBounds(Ticked(begun, i.now), i, Count(g.state.board));
      SpawnInBounds(i.kind);
      if !IsOver(Played(g.state, i).tasks) {
        TickKeepsPlayable(g.state, i);
      }
    }
  }

  lemma {:induction false} RunStaysInBounds(g: PlayerGame, run: seq<TickInput>)
    requires Safe(g) && FitsRun(g, run) && ContinuesThrough(g, run)
    ensures Safe(AfterRun(g, run))
    decreases |run|
  {
    assert g.state.WellFormed();
    hide PlayerTick, FitsInput, GameContinues, Safe;
    if run != [] {
      StaysInBounds(g, run[0]);
      RunStaysInBounds(PlayerTick(g, run[0]), run[1..]);
    }
  }

  predicate ContinuesThrough(g: PlayerGame, run: seq<TickInput>)
    requires g.state.WellFormed() && FitsRun(g, run)
    decreases |run|
  {
    run == [] || (GameContinues(g, run[0]) && ContinuesThrough(PlayerTick(g, run[0]), run[1..]))
  }

  // ---------- Coordinates ----------

  predicate FitsByte(n: int) {
    -128 <= n < 128
  }

  /** The numbers in a task survive the narrowing to a signed byte. */
  predicate TaskFits(t: Task) {
    match t
    case Fix(x, y) => FitsByte(x) && FitsByte(y)
    case ClearLine(line) => FitsByte(line)
    case AddLine(hole) => FitsByte(hole)
    case _ => true
  }

  predicate AllFit(tasks: seq<Task>) {
    forall k :: 0 <= k < |tasks| ==> TaskFits(tasks[k])
  }

  /** A piece inside the board has small coordinates. */
  predicate Near(t: Tetromino, slack: nat) {
    -3 <= t.moved.x <= 9 && -3 - slack <= t.moved.y <= 24
  }

  lemma AfterFixFits(r: State, now: int)
    requires r.WellFormed() && AllFit(r.tasks)
    ensures AllFit(AfterFix(r, now).tasks) && AfterFix(r, now).piece == r.piece
  {
  }

  lemma InputFits(s: State, m: Input, now: int)
    requires s.WellFormed() && AllInBounds(s.piece) && AllFit(s.tasks)
    ensures var s' := Handled(s, m, now);
            AllInBounds(s'.piece) && AllFit(s'.tasks)
  {
    hide MoveInput, AfterFix, IsValid;
    var (r, result) := MoveInput(s, m, now);
    MoveEffect(s, m, now);
    assert AllInBounds(r.piece);
    assert InBounds(r.piece.Cells()[0]) && 0 <= r.piece.blocks[0].x <= 3 && 0 <= r.piece.blocks[0].y <= 3;
    AfterFixFits(r, now);
  }

  lemma {:induction false} InputsFit(s: State, i: int, now: int)
    requires s.WellFormed() && -1 <= i < |s.moves| && AllInBounds(s.piece) && AllFit(s.tasks)
    ensures AllFit(HandledFrom(s, i, now).tasks) && AllInBounds(HandledFrom(s, i, now).piece)
    decreases i + 1
  {
    hide Handled, AllFit;
    if i >= 0 {
      if s.moves[i] {
        InputFits(s, InputOf(i), now);
        InputsFit(Handled(s, InputOf(i), now), i - 1, now);
      } else {
        InputsFit(s, i - 1, now);
      }
    }
  }

  lemma {:induction false} GarbageFits(s: State, holes: seq<int>, slack: nat)
    requires s.WellFormed() && AreHoles(holes) && AllFit(s.tasks) && Near(s.piece, slack)
    ensures var s' := GarbageAdded(s, holes);
            AllFit(s'.tasks) && Near(s'.piece, slack + |holes|)
    decreases |holes|
  {
    if holes != [] {
      var s1 := LineAdded(s, holes[0]);
      if HiddenEmpty(s1.board) {
        GarbageFits(Lifted(s1), holes[1..], slack + 1);
      }
    }
  }

  lemma TickedFits(s: State, inputs: seq<int>, now: int)
    requires Playable(s)
    ensures var ticked := Ticked(s.(inputs := s.inputs + inputs), now);
            AllFit(ticked.tasks) && Near(ticked.piece, 0)
  {
    hide HandledFrom;
    PreparedKeeps(s, inputs, now);
    var prepared := Prepared(s.(inputs := s.inputs + inputs), now);
    InputsFit(prepared, |prepared.moves| - 1, now);
    var t := Ticked(s.(inputs := s.inputs + inputs), now).piece;
    assert InBounds(t.Cells()[0]) && 0 <= t.blocks[0].x <= 3 && 0 <= t.blocks[0].y <= 3;
  }

  lemma AttackedFits(ticked: State, i: TickInput)
    requires ticked.WellFormed() && AreHoles(i.holes) && AllFit(ticked.tasks) && Near(ticked.piece, 0)
    ensures AllFit(Attacked(ticked, i).tasks) && Near(Attacked(ticked, i).piece, |i.holes|)
  {
    hide GarbageAdded, AllFit;
    GarbageFits(ticked.(pending := ticked.pending + i.attacks), i.holes, 0);
  }

  lemma ClosingFits(s: State, i: TickInput)
    requires s.WellFormed() && AllFit(s.tasks)
    ensures AllFit(Spawned(s, i.kind).tasks) && AllFit(OverChecked(s).tasks) && AllFit(Emitted(s, GameEnd(i.winner)).tasks)
  {
  }

  /** Every coordinate of a tick fits in the signed byte the server keeps it in, including the
      position of a locked piece that garbage lines push above the board. */
  lemma CoordinatesFitInByte(s: State, i: TickInput)
    requires Playable(s) && FitsInput(s, i)
    ensures AllFit(Played(s, i).tasks)
    ensures |i.holes| <= 100 ==> FitsByte(Pushed(s, i).piece.moved.x) && FitsByte(Pushed(s, i).piece.moved.y)
  {
    assert s.WellFormed();
    hide Ticked, Attacked, FitsInput, Playable, AllFit, Spawned, OverChecked, HiddenEmpty;
    TickedFits(s, i.inputs, i.now);
    AttackedFits(Ticked(s.(inputs := s.inputs + i.inputs), i.now), i);
    ClosingFits(Pushed(s, i), i);
  }
}
