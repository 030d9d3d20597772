/** How many bytes one player's tick can take, and why five players always fit in one
    send buffer. */
module PacketBound {
  import opened Tetromino
  import opened Board
  import opened Timing
  import opened TickSpec
  import opened TickInvariant
  import opened Packets

  const MAX_ROOM_PLAYERS: nat := 5

  /** One timer line, and four lines from each of four opponents. */
  const MAX_GARBAGE_LINES: nat := 1 + 4 * (MAX_ROOM_PLAYERS - 1)

  function TaskSize(t: Task): nat {
    match t
    case Move(_) => 8
    case Fix(_, _) => 9
    case ClearLine(_) => 13
    case AddLine(_) => 8
    case GameOver => 7
    case GameEnd(_) => 7
    case Spawn => 11
  }

  function Size(tasks: seq<Task>): nat {
    if tasks == [] then 0 else Size(tasks[..|tasks| - 1]) + TaskSize(tasks[|tasks| - 1])
  }

  /** `Size` is the length of what is put on the wire. */
  lemma {:induction false} SizeIsEncodedLength(tasks: seq<Task>, id: int, i: TickInput)
    ensures |EncodedAll(TaskPackets(tasks, id, i))| == Size(tasks)
  {
    if tasks != [] {
      var n := |tasks| - 1;
      assert TaskPackets(tasks, id, i)[..n] == TaskPackets(tasks[..n], id, i);
      SizeIsEncodedLength(tasks[..n], id, i);
    }
  }

  lemma SizeEmit(tasks: seq<Task>, t: Task)
    ensures Size(tasks + [t]) == Size(tasks) + TaskSize(t)
  {
    assert (tasks + [t])[..|tasks|] == tasks;
  }

  lemma {:induction false} SizeClears(tasks: seq<Task>, rows: seq<int>)
    ensures Size(tasks + ClearTasks(rows)) == Size(tasks) + 13 * |rows|
  {
    if rows == [] {
      assert tasks + ClearTasks(rows) == tasks;
    } else {
      var n := |rows| - 1;
      SizeClears(tasks, rows[..n]);
      assert tasks + ClearTasks(rows) == tasks + ClearTasks(rows[..n]) + [ClearLine(rows[n])];
      SizeEmit(tasks + ClearTasks(rows[..n]), ClearLine(rows[n]));
    }
  }

  /** A lock: at most four cleared rows and a game over behind the FIX task. */
  lemma LockCost(r: State, now: int)
    requires r.WellFormed() && NoFullVisibleRow(r.board) && IsValid(r.board, r.piece)
    ensures Size(AfterFix(r, now).tasks) <= Size(r.tasks) + 59
    ensures HasFix(r.tasks) ==> HasFix(AfterFix(r, now).tasks)
  {
    hide Filled, Kept, IsValid, NoFullVisibleRow, HiddenEmpty, Size, HasFix;
    var rows := FullRows(Filled(r.board, r.piece.Cells()), TOTAL_HEIGHT);
    LockClearsAtMostFour(r.board, r.piece);
    SizeClears(r.tasks, rows);
    SizeEmit(r.tasks + ClearTasks(rows), GameOver);
    HasFixAppend(r.tasks, ClearTasks(rows));
    HasFixAppend(r.tasks + ClearTasks(rows), [GameOver]);
  }

  lemma InputCost(s: State, m: Input, now: int, cells: int)
    requires MidTick(s, now, cells)
    ensures var s' := Handled(s, m, now);
            && (HasFix(s.tasks) ==> HasFix(s'.tasks))
            && (if HasFix(s'.tasks) && !HasFix(s.tasks) then Size(s'.tasks) <= Size(s.tasks) + 68
                else Size(s'.tasks) <= Size(s.tasks) + if m == DROP || (m == DOWN && HasFix(s.tasks)) then 0 else 8)
            && (m != DOWN && m != DROP && !HasFix(s.tasks) ==> !HasFix(s'.tasks))
  {
    hide MoveInput, AfterFix, IsValid, HiddenEmpty, NoFullVisibleRow, Count, Net;
    var (r, result) := MoveInput(s, m, now);
    MoveEffect(s, m, now);
    DropNeverSteps(s, now);
    LockedNeverDescends(s, now, cells);
    if result.Moved? {
      SizeEmit(s.tasks, Move(TaskOf(m)));
      HasFixAppend(s.tasks, [Move(TaskOf(m))]);
    } else if result.Fixed? {
      var task := Fix(r.piece.moved.x, r.piece.moved.y);
      SizeEmit(s.tasks, task);
      HasFixAppend(s.tasks, [task]);
      assert [task][0].Fix?;
      LockCost(r, now);
    }
  }

  lemma DropNeverSteps(s: State, now: int)
    requires s.WellFormed()
    ensures !MoveInput(s, DROP, now).1.Moved?
  {
  }

  lemma LockedNeverDescends(s: State, now: int, cells: int)
    requires MidTick(s, now, cells)
    ensures HasFix(s.tasks) ==> MoveInput(s, DOWN, now).1.Nothing? && MoveInput(s, DROP, now).1.Nothing?
  {
  }

  /** The most the inputs from number `i` down can add: once a piece has locked only the three
      sideways moves are left; before that one more step or one lock. */
  function InputBudget(i: int, locked: bool): int {
    var sideways := if i >= 2 then 24 else 8 * (i + 1);
    if locked || i < 3 then sideways else sideways + 68
  }

  lemma {:induction false} InputsCost(s: State, i: int, now: int, cells: int)
    requires s.WellFormed() && -1 <= i < |s.moves| && MidTick(s, now, cells)
    ensures Size(HandledFrom(s, i, now).tasks) <= Size(s.tasks) + InputBudget(i, HasFix(s.tasks))
    decreases i + 1
  {
    hide Handled, MidTick, HasFix;
    if i >= 0 {
      if s.moves[i] {
        InputKeeps(s, InputOf(i), now, cells);
        InputCost(s, InputOf(i), now, cells);
        InputsCost(Handled(s, InputOf(i), now), i - 1, now, cells);
      } else {
        InputsCost(s, i - 1, now, cells);
      }
    }
  }

  lemma {:induction false} GarbageCost(s: State, holes: seq<int>)
    requires s.WellFormed() && AreHoles(holes)
    ensures Size(GarbageAdded(s, holes).tasks) <= Size(s.tasks) + 16 * |holes|
    decreases |holes|
  {
    if holes != [] {
      var s1 := LineAdded(s, holes[0]);
      SizeEmit(s.tasks, AddLine(holes[0]));
      SizeEmit(s1.tasks, GameOver);
      SizeEmit(s1.tasks, Move(MoveUp));
      if HiddenEmpty(s1.board) {
        GarbageCost(Lifted(s1), holes[1..]);
      }
    }
  }

  lemma TickedCost(s: State, inputs: seq<int>, now: int)
    requires Playable(s)
    ensures Size(Ticked(s.(inputs := s.inputs + inputs), now).tasks) <= 92
  {
    hide HandledFrom;
    PreparedKeeps(s, inputs, now);
    var prepared := Prepared(s.(inputs := s.inputs + inputs), now);
    InputsCost(prepared, |prepared.moves| - 1, now, Count(s.board));
  }

  lemma AttackedCost(ticked: State, i: TickInput)
    requires ticked.WellFormed() && AreHoles(i.holes)
    ensures Size(Attacked(ticked, i).tasks) <= Size(ticked.tasks) + 16 * |i.holes|
  {
    hide GarbageAdded, Size, HiddenEmpty, IsValid;
    var ready := ticked.(pending := ticked.pending + i.attacks);
    GarbageCost(ready, i.holes);
    assert Attacked(ticked, i) == GarbageAdded(ready, i.holes);
  }

  /** A multi-player room adds one more task at most. */
  lemma ClosingCost(s: State, i: TickInput)
    requires s.WellFormed() && FitsInput(s, i) && !i.single
    ensures Size(Played(s, i).tasks) <= Size(Pushed(s, i).tasks) + 11
  {
    hide Pushed, Size, HasFix, FitsInput;
    var pushed := Pushed(s, i);
    SizeEmit(pushed.tasks, Spawn);
    SizeEmit(pushed.tasks, GameEnd(i.winner));
  }

  /** One player's tick in a multi-player room: at most 375 bytes, whatever happens in it. */
  lemma TickBytes(s: State, i: TickInput, id: int)
    requires Playable(s) && FitsInput(s, i) && !i.single && |i.holes| <= MAX_GARBAGE_LINES
    ensures |EncodedAll(TaskPackets(Played(s, i).tasks, id, i))| <= 375
  {
    assert s.WellFormed();
    hide Ticked, Attacked, EncodedAll, Playable, FitsInput, Size, Played;
    var ticked := Ticked(s.(inputs := s.inputs + i.inputs), i.now);
    TickedCost(s, i.inputs, i.now);
    AttackedCost(ticked, i);
    ClosingCost(s, i);
    SizeIsEncodedLength(Played(s, i).tasks, id, i);
  }
}
