/** The server's per-player engine, working in place. Every method is tied to the function
    of `TickSpec` that says what it computes. */
module Engine {
  import opened Tetromino
  import opened Board
  import opened Timing
  import opened TickSpec

  class Tetris {
    const board: array<Row>
    const pendingMoves: array<bool>
    const timers: TetrisTimers
    var inputTasks: seq<int>
    var sendTasks: seq<Task>
    var current: Tetromino
    var pendingGarbageLines: nat
    var clearedLines: nat

    ghost predicate Valid()
      reads this
    {
      && board.Length == TOTAL_HEIGHT
      && pendingMoves.Length == INPUT_TYPE_COUNT
      && current.WellFormed()
    }

    ghost function View(): (s: State)
      requires Valid()
      reads this, board, pendingMoves, timers
      ensures s.WellFormed()
    {
      State(board[..], current, timers.View(), inputTasks, pendingMoves[..], sendTasks, pendingGarbageLines, clearedLines)
    }

    constructor (now: int)
      ensures Valid() && fresh(board) && fresh(pendingMoves) && fresh(timers)
      ensures View() == Started(I, now).(piece := View().piece)
    {
      board := new Row[TOTAL_HEIGHT](_ => EmptyRow());
      pendingMoves := new bool[INPUT_TYPE_COUNT](_ => false);
      timers := new TetrisTimers(now);
      inputTasks, sendTasks := [], [];
      current := NewTetromino(I, Position(0, 0));
      pendingGarbageLines, clearedLines := 0, 0;
      new;
      assert board[..] == EmptyBoard();
      assert pendingMoves[..] == seq(INPUT_TYPE_COUNT, _ => false);
    }

    method InitNewTetromino(kind: Kind, spawn: Position)
      requires Valid()
      modifies this`current
      ensures Valid() && View() == old(View()).(piece := NewTetromino(kind, spawn))
    {
      current := NewTetromino(kind, spawn);
    }

    method IsValidPosition(t: Tetromino) returns (ok: bool)
      requires Valid() && t.WellFormed()
      ensures ok == IsValid(board[..], t)
    {
      for i := 0 to 4
        invariant forall j :: 0 <= j < i ==> InBounds(t.Cells()[j]) && !board[t.Cells()[j].y][t.Cells()[j].x]
      {
        var p := Position(t.blocks[i].x + t.moved.x, t.blocks[i].y + t.moved.y);
        assert p == t.Cells()[i];
        if p.x < 0 || p.x > BOARD_WIDTH - 1 {
          return false;
        }
        if p.y < 0 || p.y > TOTAL_HEIGHT - 1 {
          return false;
        }
        if board[p.y][p.x] {
          return false;
        }
      }
      return true;
    }

    method ProcessMoveInput(m: Input, now: int) returns (result: Result)
      requires Valid()
      modifies this`current, this`sendTasks, timers
      ensures Valid()
      ensures (View(), result) == MoveInput(old(View()), m, now)
    {
      var moved := current;
      if !timers.IsInputAllowed(m, now) {
        return Nothing;
      }
      match m {
        case RIGHT =>
          moved := moved.Shifted(1, 0);
          var ok := IsValidPosition(moved);
          if ok {
            current := moved;
            sendTasks := sendTasks + [Move(MoveRight)];
            timers.RecordInput(RIGHT, now);
            return Moved;
          }
          return Nothing;
        case LEFT =>
          moved := moved.Shifted(-1, 0);
          var ok := IsValidPosition(moved);
          if ok {
            current := moved;
            sendTasks := sendTasks + [Move(MoveLeft)];
            timers.RecordInput(LEFT, now);
            return Moved;
          }
          return Nothing;
        case DOWN =>
          moved := moved.Shifted(0, 1);
          var ok := IsValidPosition(moved);
          if ok {
            current := moved;
            sendTasks := sendTasks + [Move(MoveDown)];
            timers.RecordInput(DOWN, now);
            timers.RestartAutoDown(now);
            return Moved;
          }
          sendTasks := sendTasks + [Fix(current.moved.x, current.moved.y)];
          return Fixed;
        case ROTATE =>
          moved := moved.Rotated();
          var ok := IsValidPosition(moved);
          if ok {
            current := moved;
            sendTasks := sendTasks + [Move(MoveRotate)];
            timers.RecordInput(ROTATE, now);
            return Moved;
          }
          return Nothing;
        case DROP =>
          var ok := IsValidPosition(moved);
          ghost var target := Dropped(board[..], current);
          while ok
            modifies this`current
            invariant Valid() && moved.WellFormed() && ok == IsValid(board[..], moved)
            invariant View() == old(View()).(piece := current)
            invariant if ok then Landing(board[..], moved) == target else current == target
            decreases ok, TOTAL_HEIGHT - moved.moved.y
          {
            current := moved;
            moved := moved.Shifted(0, 1);
            assert InBounds(current.Cells()[0]) && current.blocks[0].y >= 0;
            ok := IsValidPosition(moved);
          }
          sendTasks := sendTasks + [Fix(current.moved.x, current.moved.y)];
          timers.RecordInput(DROP, now);
          return Fixed;
      }
    }

    /** The piece must lie inside the board, or the writes below would leave the array. */
    method FixTetromino()
      requires Valid() && AllInBounds(current)
      modifies board
      ensures Valid() && View() == Locked(old(View()))
    {
      ghost var cells := current.Cells();
      for i := 0 to 4
        invariant Valid() && Filled(board[..], cells[i..]) == Filled(old(board[..]), cells)
      {
        assert cells[i..][0] == cells[i] && cells[i..][1..] == cells[i + 1..];
        var p := Position(current.blocks[i].x + current.moved.x, current.blocks[i].y + current.moved.y);
        ghost var before := board[..];
        board[p.y] := board[p.y][p.x := true];
        assert board[..] == SetCell(before, p);
      }
      assert cells[4..] == [];
    }

    /** `std::rotate` that moves row `y` to the top and the rows above it down by one. */
    method RotateDown(y: nat)
      requires Valid() && y < TOTAL_HEIGHT
      modifies board
      ensures board[..] == [old(board[y])] + old(board[..y]) + old(board[y + 1..])
    {
      var last := board[y];
      var i := y;
      while i > 0
        invariant 0 <= i <= y
        invariant forall k :: 0 <= k <= i ==> board[k] == old(board[k])
        invariant forall k :: i < k <= y ==> board[k] == old(board[k - 1])
        invariant forall k :: y < k < TOTAL_HEIGHT ==> board[k] == old(board[k])
      {
        board[i] := board[i - 1];
        i := i - 1;
      }
      board[0] := last;
    }

    /** `std::rotate` that moves the top row to the bottom. */
    method RotateUp()
      requires Valid()
      modifies board
      ensures board[..] == old(board[1..]) + [old(board[0])]
    {
      var first := board[0];
      for i := 0 to TOTAL_HEIGHT - 1
        invariant forall k :: 0 <= k < TOTAL_HEIGHT ==> board[k] == old(board[if k < i then k + 1 else k])
      {
        board[i] := board[i + 1];
      }
      board[TOTAL_HEIGHT - 1] := first;
    }

    /** Empties row `y` and lets the rows above it fall. */
    method RemoveRow(y: nat)
      requires Valid() && y < TOTAL_HEIGHT
      modifies board
      ensures board[..] == RowRemoved(old(board[..]), y)
    {
      board[y] := EmptyRow();
      RotateDown(y);
    }

    /** One full row goes, and is announced and counted. */
    method ClearRow(y: nat)
      requires Valid() && y < TOTAL_HEIGHT
      modifies board, this`sendTasks, this`clearedLines
      ensures board[..] == RowRemoved(old(board[..]), y)
      ensures sendTasks == old(sendTasks) + [Task.ClearLine(y)] && clearedLines == old(clearedLines) + 1
    {
      RemoveRow(y);
      sendTasks := sendTasks + [Task.ClearLine(y)];
      clearedLines := clearedLines + 1;
    }

    method ClearLine()
      requires Valid()
      modifies board, this`sendTasks, this`clearedLines
      ensures Valid() && View() == LinesCleared(old(View()))
    {
      ghost var b := board[..];
      assert ClearedAbove(b, HIDDEN_HEIGHT) == b;
      hide ClearedAbove, RowRemoved, ClearTasks, IsFull;
      ghost var rows: seq<int> := [];
      for y := HIDDEN_HEIGHT to TOTAL_HEIGHT
        invariant Valid() && board[..] == ClearedAbove(b, y)
        invariant rows == FullRows(b, y)
        invariant sendTasks == old(sendTasks) + ClearTasks(rows)
        invariant clearedLines == old(clearedLines) + |rows|
      {
        ClearedAboveStep(b, y);
        assert board[y] == board[..][y];
        if IsFull(board[y]) {
          ClearRow(y);
          ClearTasksAppend(rows, y);
          rows := rows + [y];
        }
      }
    }

    method CheckGameOver() returns (over: bool)
      requires Valid()
      modifies this`sendTasks
      ensures Valid() && View() == OverChecked(old(View()))
      ensures over == !HiddenEmpty(board[..])
    {
      over := false;
      var x := 0;
      while x < BOARD_WIDTH && !over
        invariant 0 <= x <= BOARD_WIDTH
        invariant over ==> !HiddenEmpty(board[..])
        invariant !over ==> forall y, k :: 0 <= y < HIDDEN_HEIGHT && 0 <= k < x ==> !board[y][k]
      {
        var y := 0;
        while y < HIDDEN_HEIGHT && !over
          invariant 0 <= y <= HIDDEN_HEIGHT
          invariant over ==> !HiddenEmpty(board[..])
          invariant !over ==> forall r :: 0 <= r < y ==> !board[r][x]
        {
          if board[y][x] {
            assert board[..][y][x];
            over := true;
          }
          y := y + 1;
        }
        x := x + 1;
      }
      if over {
        sendTasks := sendTasks + [GameOver];
      }
    }

    /** One garbage line at the bottom; everything else moves up. */
    method AddGarbageLine(hole: int)
      requires Valid() && 0 <= hole < BOARD_WIDTH
      modifies board, this`sendTasks
      ensures Valid() && View() == LineAdded(old(View()), hole)
    {
      RotateUp();
      board[TOTAL_HEIGHT - 1] := GarbageRow(hole);
      assert board[..] == PushedUp(old(board[..]), hole);
      sendTasks := sendTasks + [AddLine(hole)];
    }

    /** `holes` stands for the random columns, one for every pending line. */
    method AddGarbageLines(holes: seq<int>)
      requires Valid() && AreHoles(holes) && |holes| == pendingGarbageLines
      modifies board, this`sendTasks, this`current
      ensures Valid() && View() == GarbageAdded(old(View()), holes)
    {
      hide PushedUp, LineAdded;
      for i := 0 to pendingGarbageLines
        invariant Valid() && |holes| == pendingGarbageLines
        invariant GarbageAdded(View(), holes[i..]) == GarbageAdded(old(View()), holes)
      {
        ghost var before := View();
        assert holes[i..][0] == holes[i] && holes[i..][1..] == holes[i + 1..];
        AddGarbageLine(holes[i]);
        var over := CheckGameOver();
        if over {
          return;
        }
        var ok := IsValidPosition(current);
        if !ok {
          current := current.Shifted(0, -1);
          sendTasks := sendTasks + [Move(MoveUp)];
        }
        assert View() == Lifted(LineAdded(before, holes[i]));
      }
      assert holes[|holes|..] == [];
    }

    /** One merged input, with the lock it may bring about. */
    method HandleInput(m: Input, now: int)
      requires Valid() && AllInBounds(current)
      modifies board, this`current, this`sendTasks, this`clearedLines, timers
      ensures Valid() && AllInBounds(current)
      ensures View() == Handled(old(View()), m, now)
    {
      InputKeepsBounds(View(), m, now);
      var result := ProcessMoveInput(m, now);
      if result == Fixed {
        FixTetromino();
        timers.RecordInput(DOWN, now);
        timers.RestartAutoDown(now);
        timers.RecordInput(DROP, now);
        ClearLine();
        var _ := CheckGameOver();
      }
    }

    /** Runs the merged inputs from DROP down to RIGHT. */
    method RunInputs(now: int)
      requires Valid() && AllInBounds(current)
      modifies board, this`current, this`sendTasks, this`clearedLines, timers
      ensures Valid() && View() == HandledFrom(old(View()), INPUT_TYPE_COUNT - 1, now)
    {
      var i := INPUT_TYPE_COUNT - 1;
      while i >= 0
        invariant -1 <= i < INPUT_TYPE_COUNT
        invariant Valid() && AllInBounds(current)
        invariant HandledFrom(View(), i, now) == HandledFrom(old(View()), INPUT_TYPE_COUNT - 1, now)
      {
        if pendingMoves[i] {
          HandleInput(InputOf(i), now);
        }
        i := i - 1;
      }
    }

    /** The deadlines that have passed, and the inputs merged. */
    method PrepareTick(now: int)
      requires Valid()
      modifies this`pendingGarbageLines, this`inputTasks, pendingMoves, timers
      ensures Valid() && View() == Prepared(old(View()), now)
    {
      if timers.IsGarbageLineDue(now) {
        timers.RestartGarbageLine(now);
        pendingGarbageLines := pendingGarbageLines + 1;
      }
      if timers.IsAutoDownDue(now) {
        timers.RestartAutoDown(now);
        inputTasks := inputTasks + [3];
      }
      MergeInputs();
    }

    /** The piece must start the tick inside the board (see `FixTetromino`). */
    method ProcessTick(now: int)
      requires Valid() && AllInBounds(current)
      modifies this, board, pendingMoves, timers
      ensures Valid() && View() == Ticked(old(View()), now)
    {
      PrepareTick(now);
      RunInputs(now);
    }

    method MergeInputs()
      requires Valid()
      modifies pendingMoves
      ensures Valid() && View() == old(View()).(moves := Merged(old(View()).moves, inputTasks))
    {
      for n := 0 to |inputTasks|
        invariant Valid() && View() == old(View()).(moves := pendingMoves[..])
        invariant pendingMoves[..] == Merged(old(View()).moves, inputTasks[..n])
      {
        var index := inputTasks[n];
        if 0 <= index < INPUT_TYPE_COUNT {
          pendingMoves[index] := true;
        }
        assert inputTasks[..n + 1] == inputTasks[..n] + [index];
      }
      assert inputTasks[..|inputTasks|] == inputTasks;
    }

    method ResetTickData()
      requires Valid()
      modifies this, pendingMoves
      ensures Valid() && View() == Reset(old(View()))
    {
      for i := 0 to INPUT_TYPE_COUNT
        invariant Valid() && forall k :: 0 <= k < i ==> !pendingMoves[k]
        invariant View() == old(View()).(moves := pendingMoves[..])
      {
        pendingMoves[i] := false;
      }
      assert pendingMoves[..] == seq(INPUT_TYPE_COUNT, _ => false);
      inputTasks, sendTasks := [], [];
      pendingGarbageLines, clearedLines := 0, 0;
    }

    /** A new game: an empty board and fresh deadlines. The piece is set separately. */
    method Clear(now: int)
      requires Valid()
      modifies board, pendingMoves, timers
      ensures Valid()
      ensures View() == old(View()).(board := EmptyBoard(), moves := seq(INPUT_TYPE_COUNT, _ => false), timers := FreshTimers(now))
    {
      for i := 0 to TOTAL_HEIGHT
        invariant Valid() && forall k :: 0 <= k < i ==> board[k] == EmptyRow()
        invariant View() == old(View()).(board := board[..])
      {
        board[i] := EmptyRow();
      }
      assert board[..] == EmptyBoard();
      for i := 0 to INPUT_TYPE_COUNT
        invariant Valid() && forall k :: 0 <= k < i ==> !pendingMoves[k]
        invariant View() == old(View()).(board := EmptyBoard(), moves := pendingMoves[..])
      {
        pendingMoves[i] := false;
      }
      assert pendingMoves[..] == seq(INPUT_TYPE_COUNT, _ => false);
      timers.Reset(now);
    }

    /** A game starts where the last tick's data have been reset (`ResetTickData`): then `Clear` and
        the first piece leave nothing of an earlier game. */
    method StartGame(kind: Kind, now: int)
      requires Valid() && IsAtRest(View())
      modifies board, pendingMoves, timers, this`current
      ensures Valid() && View() == Started(kind, now)
    {
      InitNewTetromino(kind, SPAWN_POSITION);
      Clear(now);
    }

    // ---------- What the room adds ----------

    /** The room hands out the inputs that have arrived. */
    method AddInputs(codes: seq<int>)
      requires Valid()
      modifies this`inputTasks
      ensures Valid() && View() == old(View()).(inputs := old(View()).inputs + codes)
    {
      inputTasks := inputTasks + codes;
    }

    method AddPendingGarbageLines(count: nat)
      requires Valid()
      modifies this`pendingGarbageLines
      ensures Valid() && View() == old(View()).(pending := old(View()).pending + count)
    {
      pendingGarbageLines := pendingGarbageLines + count;
    }

    /** A piece that was locked in this tick is followed by the next one. */
    method AddSpawn(kind: Kind)
      requires Valid()
      modifies this`sendTasks, this`current
      ensures Valid() && View() == Spawned(old(View()), kind)
    {
      var fixed := false;
      for i := 0 to |sendTasks|
        invariant Valid() && View() == old(View())
        invariant fixed <==> HasFix(sendTasks[..i])
      {
        FixFound(sendTasks, i);
        if sendTasks[i].Fix? {
          fixed := true;
        }
      }
      assert sendTasks[..|sendTasks|] == sendTasks;
      hide HasFix;
      if fixed {
        sendTasks := sendTasks + [Spawn];
        InitNewTetromino(kind, SPAWN_POSITION);
      }
    }

    /** A single-player room's tick: inputs, garbage, one more check for game over, and the next
        piece if the game goes on. */
    method PlaySingle(i: TickInput)
      requires Valid() && AllInBounds(current) && i.single && FitsInput(View(), i)
      modifies this, board, pendingMoves, timers
      ensures Valid() && View() == Played(old(View()), i)
    {
      hide Ticked, GarbageAdded;
      AddInputs(i.inputs);
      TickedPending(View(), i.now);
      ProcessTick(i.now);
      AddPendingGarbageLines(i.attacks);
      AddGarbageLines(i.holes);
      var over := CheckGameOver();
      if !over {
        AddSpawn(i.kind);
      }
    }
  }

  lemma FixFound(tasks: seq<Task>, i: nat)
    requires i < |tasks|
    ensures HasFix(tasks[..i + 1]) <==> HasFix(tasks[..i]) || tasks[i].Fix?
  {
    var (longer, shorter) := (tasks[..i + 1], tasks[..i]);
    assert forall k :: 0 <= k < i ==> shorter[k] == longer[k];
    assert longer[i] == tasks[i];
  }

  /** A tick's inputs leave the pending lines alone, but for the line that is due. */
  lemma TickedPending(s: State, now: int)
    requires s.WellFormed()
    ensures Ticked(s, now).pending == s.pending + DueLines(s, now)
  {
    hide MoveInput;
    PendingStays(Prepared(s, now), |Prepared(s, now).moves| - 1, now);
  }

  lemma {:induction false} PendingStays(s: State, i: int, now: int)
    requires s.WellFormed() && -1 <= i < |s.moves|
    ensures HandledFrom(s, i, now).pending == s.pending
    decreases i + 1
  {
    hide MoveInput;
    if i >= 0 {
      MoveEffect(s, InputOf(i), now);
      PendingStays(if s.moves[i] then Handled(s, InputOf(i), now) else s, i - 1, now);
    }
  }

  lemma ClearTasksAppend(rows: seq<int>, y: int)
    ensures ClearTasks(rows + [y]) == ClearTasks(rows) + [Task.ClearLine(y)]
  {
  }

  /** No input takes a piece out of the board, whether or not it fits where it is. */
  lemma InputKeepsBounds(s: State, m: Input, now: int)
    requires s.WellFormed() && AllInBounds(s.piece)
    ensures AllInBounds(MoveInput(s, m, now).0.piece)
  {
  }
}
