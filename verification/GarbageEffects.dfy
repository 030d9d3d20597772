/** What garbage lines do to a board and its piece, row by row, and when a room closes a player's
    tick with a spawn, a game over or the end of the game. */
module GarbageEffects {
  import opened Tetromino
  import opened Board
  import opened Timing
  import opened TickSpec
  import opened TickInvariant
  import opened TickEffects

  // ---------- Pushing ----------

  /** The board when garbage lines with these holes have come in, row by row: what has not left at
      the top stands that many rows higher, and the last line is at the bottom. */
  function PushedBy(b: Board, holes: seq<int>): (b': Board)
    requires AreHoles(holes)
    ensures forall y :: 0 <= y < 25 - |holes| ==> b'[y] == b[y + |holes|]
    ensures forall y :: 0 <= y < 25 && 25 - |holes| <= y ==> b'[y] == GarbageRow(holes[y + |holes| - 25])
  {
    seq(TOTAL_HEIGHT, (y: int) requires 0 <= y < 25 => RisenRow(b, holes, y))
  }

  function RisenRow(b: Board, holes: seq<int>, y: int): Row
    requires AreHoles(holes) && 0 <= y < 25
  {
    if y < 25 - |holes| then b[y + |holes|] else GarbageRow(holes[y + |holes| - 25])
  }

  lemma PushedByNone(b: Board)
    ensures PushedBy(b, []) == b
  {
  }

  lemma PushedByFirst(b: Board, holes: seq<int>)
    requires AreHoles(holes) && holes != []
    ensures PushedBy(b, holes) == PushedBy(PushedUp(b, holes[0]), holes[1..])
  {
    var first, rest := PushedUp(b, holes[0]), holes[1..];
    var all, stepwise := PushedBy(b, holes), PushedBy(first, rest);
    forall y | 0 <= y < 25
      ensures all[y] == stepwise[y]
    {
      if y < 25 - |rest| {
        assert stepwise[y] == first[y + |rest|];
      } else {
        assert stepwise[y] == GarbageRow(rest[y + |rest| - 25]);
      }
    }
  }

  /** The columns of the garbage lines that were announced, in order. */
  function LinesIn(tasks: seq<Task>): seq<int> {
    if tasks == [] then []
    else LinesIn(tasks[..|tasks| - 1]) + if tasks[|tasks| - 1].AddLine? then [tasks[|tasks| - 1].hole] else []
  }

  lemma LinesInEmit(tasks: seq<Task>, t: Task)
    ensures LinesIn(tasks + [t]) == LinesIn(tasks) + if t.AddLine? then [t.hole] else []
  {
    assert (tasks + [t])[..|tasks|] == tasks;
  }

  /** How often the piece was lifted. */
  function LiftsIn(tasks: seq<Task>): nat {
    if tasks == [] then 0
    else LiftsIn(tasks[..|tasks| - 1]) + if tasks[|tasks| - 1] == Move(MoveUp) then 1 else 0
  }

  lemma LiftsInEmit(tasks: seq<Task>, t: Task)
    ensures LiftsIn(tasks + [t]) == LiftsIn(tasks) + if t == Move(MoveUp) then 1 else 0
  {
    assert (tasks + [t])[..|tasks|] == tasks;
  }

  /** `n` lines come in: all of them, unless one before brings something into the hidden rows. */
  ghost predicate StopsAfter(b: Board, holes: seq<int>, n: nat)
    requires AreHoles(holes)
  {
    && n <= |holes|
    && (forall k :: 0 < k < n ==> HiddenEmpty(PushedBy(b, holes[..k])))
    && (n < |holes| ==> n > 0 && !HiddenEmpty(PushedBy(b, holes[..n])))
  }

  /** There is something in the hidden rows after `n` lines. */
  ghost predicate Overflows(b: Board, holes: seq<int>, n: nat)
    requires AreHoles(holes) && n <= |holes|
  {
    n > 0 && !HiddenEmpty(PushedBy(b, holes[..n]))
  }

  lemma PrefixAfterFirst(b: Board, holes: seq<int>, k: nat)
    requires AreHoles(holes) && 0 < k <= |holes|
    ensures PushedBy(b, holes[..k]) == PushedBy(PushedUp(b, holes[0]), holes[1..][..k - 1])
  {
    assert holes[..k][1..] == holes[1..][..k - 1];
    PushedByFirst(b, holes[..k]);
  }

  lemma StopsLater(b: Board, holes: seq<int>, n: nat)
    requires AreHoles(holes) && holes != [] && StopsAfter(b, holes, n)
    ensures n > 0
    ensures HiddenEmpty(PushedUp(b, holes[0])) ==>
              StopsAfter(PushedUp(b, holes[0]), holes[1..], n - 1) && (Overflows(b, holes, n) <==> Overflows(PushedUp(b, holes[0]), holes[1..], n - 1))
    ensures !HiddenEmpty(PushedUp(b, holes[0])) ==> n == 1 && Overflows(b, holes, 1)
    ensures PushedBy(b, holes[..1]) == PushedUp(b, holes[0])
  {
    hide PushedBy, HiddenEmpty, PushedUp;
    PrefixAfterFirst(b, holes, 1);
    PushedByNone(PushedUp(b, holes[0]));
    if n > 1 {
      assert HiddenEmpty(PushedBy(b, holes[..1]));
    }
    forall k | 0 < k <= |holes|
      ensures PushedBy(b, holes[..k]) == PushedBy(PushedUp(b, holes[0]), holes[1..][..k - 1])
    {
      PrefixAfterFirst(b, holes, k);
    }
    if HiddenEmpty(PushedUp(b, holes[0])) {
      forall k | 0 < k < n - 1
        ensures HiddenEmpty(PushedBy(PushedUp(b, holes[0]), holes[1..][..k]))
      {
        assert HiddenEmpty(PushedBy(b, holes[..k + 1]));
      }
    }
  }

  /** These lines have come in, each announced, and the piece has risen by one for every lift that
      was announced. */
  ghost predicate HasTaken(s: State, s': State, lines: seq<int>) {
    && AreHoles(lines)
    && s'.board == PushedBy(s.board, lines)
    && LinesIn(s'.tasks) == LinesIn(s.tasks) + lines
    && s'.piece == s.piece.Shifted(0, LiftsIn(s.tasks) - LiftsIn(s'.tasks))
  }

  /** One line that does not end the game. */
  lemma LineWrittenOut(s: State, hole: int)
    requires s.WellFormed() && 0 <= hole < BOARD_WIDTH
    ensures var s' := Lifted(LineAdded(s, hole));
            HasTaken(s, s', [hole]) && (IsOver(s'.tasks) <==> IsOver(s.tasks))
  {
    hide PushedUp, IsValid, LinesIn, LiftsIn, PushedBy;
    var s1 := LineAdded(s, hole);
    PushedByFirst(s.board, [hole]);
    PushedByNone(s1.board);
    LinesInEmit(s.tasks, AddLine(hole));
    LiftsInEmit(s.tasks, AddLine(hole));
    LinesInEmit(s1.tasks, Move(MoveUp));
    LiftsInEmit(s1.tasks, Move(MoveUp));
    assert LinesIn(s1.tasks) + [] == LinesIn(s1.tasks);
    assert s.piece.Shifted(0, 0) == s.piece;
  }

  /** One line that does. */
  lemma LastLineWrittenOut(s: State, hole: int)
    requires s.WellFormed() && 0 <= hole < BOARD_WIDTH
    ensures var s' := Emitted(LineAdded(s, hole), GameOver);
            HasTaken(s, s', [hole]) && EndsTheGame(s')
  {
    hide PushedUp, LinesIn, LiftsIn, PushedBy;
    PushedByFirst(s.board, [hole]);
    PushedByNone(PushedUp(s.board, hole));
    LinesInEmit(s.tasks, AddLine(hole));
    LiftsInEmit(s.tasks, AddLine(hole));
    LinesInEmit(s.tasks + [AddLine(hole)], GameOver);
    LiftsInEmit(s.tasks + [AddLine(hole)], GameOver);
    assert s.piece.Shifted(0, 0) == s.piece;
  }

  predicate EndsTheGame(s: State) {
    s.tasks != [] && s.tasks[|s.tasks| - 1] == GameOver
  }

  lemma TakenTogether(s: State, s1: State, s2: State, hole: int, lines: seq<int>)
    requires HasTaken(s, s1, [hole]) && HasTaken(s1, s2, lines)
    ensures HasTaken(s, s2, [hole] + lines)
  {
    hide PushedBy, LinesIn, LiftsIn;
    var all := [hole] + lines;
    assert AreHoles(all) && all[0] == hole && all[1..] == lines;
    PushedByFirst(s.board, all);
    PushedByFirst(s.board, [hole]);
    PushedByNone(PushedUp(s.board, hole));
  }

  lemma GarbageUnfolds(s: State, holes: seq<int>)
    requires s.WellFormed() && AreHoles(holes) && holes != []
    ensures LineAdded(s, holes[0]).WellFormed()
    ensures GarbageAdded(s, holes) ==
              if HiddenEmpty(PushedUp(s.board, holes[0])) then GarbageAdded(Lifted(LineAdded(s, holes[0])), holes[1..])
              else Emitted(LineAdded(s, holes[0]), GameOver)
    ensures Lifted(LineAdded(s, holes[0])).board == PushedUp(s.board, holes[0])
  {
  }

  /** `n` lines come in, and only then, if at all, the game ends. */
  ghost predicate Takes(s: State, s': State, holes: seq<int>, n: nat) {
    && AreHoles(holes) && n <= |holes| && HasTaken(s, s', holes[..n])
    && (if Overflows(s.board, holes, n) then EndsTheGame(s') else IsOver(s'.tasks) == IsOver(s.tasks))
  }

  lemma FirstThenRest(s: State, s1: State, s2: State, holes: seq<int>, n: nat)
    requires AreHoles(holes) && holes != [] && 0 < n <= |holes|
    requires HasTaken(s, s1, [holes[0]]) && IsOver(s1.tasks) == IsOver(s.tasks) && Takes(s1, s2, holes[1..], n - 1)
    requires Overflows(s.board, holes, n) <==> Overflows(s1.board, holes[1..], n - 1)
    ensures Takes(s, s2, holes, n)
  {
    hide HasTaken, Overflows, IsOver, EndsTheGame;
    TakenTogether(s, s1, s2, holes[0], holes[1..][..n - 1]);
    assert holes[..n] == [holes[0]] + holes[1..][..n - 1];
  }

  lemma OnlyFirst(s: State, holes: seq<int>, n: nat)
    requires s.WellFormed() && AreHoles(holes) && holes != []
    requires StopsAfter(s.board, holes, n) && !HiddenEmpty(PushedUp(s.board, holes[0]))
    ensures Takes(s, GarbageAdded(s, holes), holes, n)
  {
    StopsLater(s.board, holes, n);
    GarbageUnfolds(s, holes);
    LastLineWrittenOut(s, holes[0]);
    assert holes[..1] == [holes[0]];
    hide HiddenEmpty, PushedUp, StopsAfter, HasTaken, IsOver, EndsTheGame, GarbageAdded, Overflows, Emitted, LineAdded, Lifted;
  }

  /** All pending lines come in, in order and each announced, up to the one that brings something
      into the hidden rows; that one ends the game. The rows rise by as many, and the piece rises by
      one for every lift that is announced. */
  lemma {:induction false} GarbageWrittenOut(s: State, holes: seq<int>, n: nat)
    requires s.WellFormed() && AreHoles(holes) && StopsAfter(s.board, holes, n)
    ensures Takes(s, GarbageAdded(s, holes), holes, n)
    decreases |holes|
  {
    hide HiddenEmpty, PushedUp, StopsAfter, Overflows, HasTaken, IsOver, EndsTheGame, Lifted, LineAdded, GarbageAdded, Emitted, Takes;
    if holes == [] {
      NothingTaken(s, n);
    } else if HiddenEmpty(PushedUp(s.board, holes[0])) {
      StopsWithin(s.board, holes, n);
      StopsLater(s.board, holes, n);
      GarbageUnfolds(s, holes);
      var s1 := Lifted(LineAdded(s, holes[0]));
      LineWrittenOut(s, holes[0]);
      GarbageWrittenOut(s1, holes[1..], n - 1);
      FirstThenRest(s, s1, GarbageAdded(s1, holes[1..]), holes, n);
    } else {
      OnlyFirst(s, holes, n);
    }
  }

  lemma StopsWithin(b: Board, holes: seq<int>, n: nat)
    requires AreHoles(holes) && StopsAfter(b, holes, n)
    ensures n <= |holes|
  {
  }

  lemma NothingTaken(s: State, n: nat)
    requires s.WellFormed() && StopsAfter(s.board, [], n)
    ensures Takes(s, GarbageAdded(s, []), [], n)
  {
    PushedByNone(s.board);
    assert s.piece.Shifted(0, 0) == s.piece && LinesIn(s.tasks) + [] == LinesIn(s.tasks);
  }

  /** There is exactly one such number of lines. */
  lemma {:induction false} StopsSomewhere(b: Board, holes: seq<int>) returns (n: nat)
    requires AreHoles(holes)
    ensures StopsAfter(b, holes, n)
    ensures forall m: nat :: StopsAfter(b, holes, m) ==> m == n
  {
    hide PushedBy, HiddenEmpty;
    n := 0;
    while n < |holes| && !(n > 0 && !HiddenEmpty(PushedBy(b, holes[..n])))
      invariant n <= |holes| && forall k :: 0 < k < n ==> HiddenEmpty(PushedBy(b, holes[..k]))
    {
      n := n + 1;
    }
  }

  // ---------- The piece ----------

  /** The cell stays free when the rows below it move up by one. */
  predicate StaysFree(b: Board, hole: int, p: Position)
    requires InBounds(p)
  {
    if p.y == 24 then p.x == hole else !b[p.y + 1][p.x]
  }

  /** After a line that does not end the game a piece stays where it is exactly when the rows that
      come up leave its cells free; otherwise it is lifted by one row, announced. */
  lemma LiftsOnlyWhenPushed(s: State, hole: int)
    requires s.WellFormed() && 0 <= hole < BOARD_WIDTH && IsValid(s.board, s.piece)
    ensures var s' := Lifted(LineAdded(s, hole));
            if forall i :: 0 <= i < 4 ==> StaysFree(s.board, hole, s.piece.Cells()[i]) then
              s'.piece == s.piece && s'.tasks == s.tasks + [AddLine(hole)]
            else
              s'.piece == s.piece.Shifted(0, -1) && s'.tasks == s.tasks + [AddLine(hole), Move(MoveUp)]
  {
    var b' := PushedUp(s.board, hole);
    forall i | 0 <= i < 4
      ensures StaysFree(s.board, hole, s.piece.Cells()[i]) <==> !b'[s.piece.Cells()[i].y][s.piece.Cells()[i].x]
    {
      var p := s.piece.Cells()[i];
      assert InBounds(p);
      assert b'[p.y] == if p.y == 24 then GarbageRow(hole) else s.board[p.y + 1];
    }
    assert s.tasks + [AddLine(hole)] + [Move(MoveUp)] == s.tasks + [AddLine(hole), Move(MoveUp)];
  }

  // ---------- The end of a tick ----------

  /** Neither a new piece nor the end of the game has been announced. */
  predicate IsOpen(tasks: seq<Task>) {
    forall k :: 0 <= k < |tasks| ==> !tasks[k].Spawn? && !tasks[k].GameEnd?
  }

  lemma InputStaysOpen(s: State, m: Input, now: int)
    requires s.WellFormed() && IsOpen(s.tasks)
    ensures IsOpen(Handled(s, m, now).tasks)
  {
    MoveEffect(s, m, now);
    hide MoveInput, Filled, Cleared, FullRows, HiddenEmpty, IsValid;
  }

  lemma {:induction false} InputsStayOpen(s: State, i: int, now: int)
    requires s.WellFormed() && -1 <= i < |s.moves| && IsOpen(s.tasks)
    ensures IsOpen(HandledFrom(s, i, now).tasks)
    decreases i + 1
  {
    hide Handled, IsOpen;
    if i >= 0 {
      if s.moves[i] {
        InputStaysOpen(s, InputOf(i), now);
        InputsStayOpen(Handled(s, InputOf(i), now), i - 1, now);
      } else {
        InputsStayOpen(s, i - 1, now);
      }
    }
  }

  lemma {:induction false} GarbageStaysOpen(s: State, holes: seq<int>)
    requires s.WellFormed() && AreHoles(holes) && IsOpen(s.tasks)
    ensures IsOpen(GarbageAdded(s, holes).tasks)
    decreases |holes|
  {
    if holes != [] {
      var s1 := LineAdded(s, holes[0]);
      if HiddenEmpty(s1.board) {
        GarbageStaysOpen(Lifted(s1), holes[1..]);
      }
    }
  }

  lemma TickedStaysOpen(s: State, now: int)
    requires s.WellFormed() && s.tasks == []
    ensures IsOpen(Ticked(s, now).tasks)
  {
    hide HandledFrom;
    InputsStayOpen(Prepared(s, now), |Prepared(s, now).moves| - 1, now);
  }

  lemma AttackedStaysOpen(ticked: State, i: TickInput)
    requires ticked.WellFormed() && AreHoles(i.holes) && IsOpen(ticked.tasks)
    ensures IsOpen(Attacked(ticked, i).tasks)
  {
    hide GarbageAdded, IsOpen;
    GarbageStaysOpen(ticked.(pending := ticked.pending + i.attacks), i.holes);
  }

  lemma PushedStaysOpen(s: State, i: TickInput)
    requires IsAtRest(s) && FitsInput(s, i)
    ensures IsOpen(Pushed(s, i).tasks)
  {
    assert s.WellFormed();
    hide Ticked, Attacked, IsOpen, FitsInput;
    var begun := s.(inputs := s.inputs + i.inputs);
    TickedStaysOpen(begun, i.now);
    AttackedStaysOpen(Ticked(begun, i.now), i);
  }

  /** What closes a tick. */
  lemma Closing(s: State, s': State, t: Task)
    requires IsOpen(s.tasks) && s'.tasks == s.tasks + [t]
    ensures Spawn in s'.tasks <==> t == Spawn
    ensures forall w :: GameEnd(w) in s'.tasks <==> t == GameEnd(w)
    ensures HasFix(s'.tasks) <==> HasFix(s.tasks) || t.Fix?
  {
    HasFixEmit(s.tasks, t);
    assert s'.tasks[|s.tasks|] == t;
  }

  /** The next piece comes exactly after a lock: in a single-player room while nothing is in the
      hidden rows, in the others while the game goes on. It stands at (3, 0) and is announced last.
      The end of the game is announced exactly when the room says so, with its winner. */
  lemma TickCloses(s: State, i: TickInput)
    requires IsAtRest(s) && FitsInput(s, i)
    ensures var (pushed, p) := (Pushed(s, i), Played(s, i));
            && p.board == pushed.board
            && (Spawn in p.tasks <==> HasFix(p.tasks) && (if i.single then HiddenEmpty(p.board) else !i.ended))
            && (Spawn in p.tasks ==> p.tasks == pushed.tasks + [Spawn] &&
                                     p.piece == Tetromino(i.kind, 0, Position(3, 0), ServerShape(i.kind, 0)))
            && (Spawn !in p.tasks ==> p.piece == pushed.piece)
            && (forall w :: GameEnd(w) in p.tasks <==> !i.single && i.ended && w == i.winner)
            && (i.single && !HiddenEmpty(p.board) ==> p.tasks == pushed.tasks + [GameOver])
  {
    PushedStaysOpen(s, i);
    assert s.WellFormed();
    hide HasFix, HiddenEmpty, FitsInput, Pushed, IsAtRest;
    var pushed := Pushed(s, i);
    assert IsOpen(pushed.tasks);
    assert Spawn !in pushed.tasks && forall w :: GameEnd(w) !in pushed.tasks;
    Closing(pushed, Emitted(pushed, Spawn), Spawn);
    Closing(pushed, Emitted(pushed, GameOver), GameOver);
    Closing(pushed, Emitted(pushed, GameEnd(i.winner)), GameEnd(i.winner));
  }
}
