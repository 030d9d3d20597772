/** What a tick does to a player, written out with the codes and the times of the protocol, and
    proved to be what the engine's functions compute. */
module TickEffects {
  import opened Tetromino
  import opened Board
  import opened Timing
  import opened TickSpec
  import opened HardDrop

  // ---------- One input ----------

  /** An input that comes too early does nothing at all. */
  lemma EarlyInput(s: State, m: Input, now: int)
    requires s.WellFormed() && !s.timers.Allows(m, now)
    ensures MoveInput(s, m, now) == (s, Nothing)
  {
  }

  /** A step down locks the piece exactly when one row lower it does not fit. */
  lemma DownLocksExactly(s: State, now: int)
    requires s.WellFormed() && s.timers.Allows(DOWN, now)
    ensures var (r, result) := MoveInput(s, DOWN, now);
            && (result == Fixed <==> !IsValid(s.board, s.piece.Shifted(0, 1)))
            && (result == Moved <==> IsValid(s.board, s.piece.Shifted(0, 1)))
            && r.piece == (if result == Moved then s.piece.Shifted(0, 1) else s.piece)
            && r.tasks == s.tasks + [if result == Moved then Move(MoveDown) else Fix(s.piece.moved.x, s.piece.moved.y)]
  {
  }

  /** Where a sideways step or a turn takes the piece. */
  function SideTarget(t: Tetromino, m: Input): (t': Tetromino)
    requires t.WellFormed() && (m == RIGHT || m == LEFT || m == ROTATE)
    ensures t'.WellFormed()
  {
    if m == RIGHT then t.(moved := Position(t.moved.x + 1, t.moved.y))
    else if m == LEFT then t.(moved := Position(t.moved.x - 1, t.moved.y))
    else t.Rotated()
  }

  function SideTask(m: Input): Task
    requires m == RIGHT || m == LEFT || m == ROTATE
  {
    if m == RIGHT then Move(MoveRight) else if m == LEFT then Move(MoveLeft) else Move(MoveRotate)
  }

  /** A sideways step or a turn is made exactly when the piece fits afterwards; it never locks. */
  lemma SideStepsExactly(s: State, m: Input, now: int)
    requires s.WellFormed() && s.timers.Allows(m, now) && (m == RIGHT || m == LEFT || m == ROTATE)
    ensures var (r, result) := MoveInput(s, m, now);
            && (result == Moved <==> IsValid(s.board, SideTarget(s.piece, m)))
            && (result == Nothing <==> !IsValid(s.board, SideTarget(s.piece, m)))
            && (result == Nothing ==> r == s)
            && (result == Moved ==> r.piece == SideTarget(s.piece, m) && r.tasks == s.tasks + [SideTask(m)])
  {
  }

  /** A drop always locks; a piece that does not fit where it is locks there. */
  lemma DropLocksAlways(s: State, now: int)
    requires s.WellFormed() && s.timers.Allows(DROP, now)
    ensures var (r, result) := MoveInput(s, DROP, now);
            && result == Fixed && r.piece.moved.x == s.piece.moved.x
            && (!IsValid(s.board, s.piece) ==> r.piece == s.piece)
            && r.tasks == s.tasks + [Fix(r.piece.moved.x, r.piece.moved.y)]
  {
  }

  // ---------- The tick, written out ----------

  /** Before a tick: nothing is left over, but inputs have arrived. */
  predicate IsReady(s: State) {
    IsAtRest(s.(inputs := []))
  }

  /** The input with this code is asked for: 0 to 4 are right, left, rotate, down and drop. A
      descent that is due counts as a 3. */
  predicate Asked(s: State, now: int, code: int) {
    code in s.inputs || (code == 3 && now >= s.timers.nextDown)
  }

  /** The deadlines that have passed are set again, and a garbage line that is due is owed. */
  function Due(s: State, now: int): State {
    s.(timers := s.timers.(nextDown := if now >= s.timers.nextDown then now + 500 else s.timers.nextDown,
                           nextGarbage := if now >= s.timers.nextGarbage then now + 10000 else s.timers.nextGarbage),
       inputs := if now >= s.timers.nextDown then s.inputs + [3] else s.inputs,
       moves := [Asked(s, now, 0), Asked(s, now, 1), Asked(s, now, 2), Asked(s, now, 3), Asked(s, now, 4)],
       pending := if now >= s.timers.nextGarbage then s.pending + 1 else s.pending)
  }

  /** A piece locks `depth` rows below: full rows go, and a filled cell in the hidden rows ends the
      game. */
  function LockedAt(s: State, now: int, depth: nat): State
    requires s.piece.WellFormed()
  {
    var piece := s.piece.Shifted(0, depth);
    var filled := Filled(s.board, piece.Cells());
    var rows := FullRows(filled, TOTAL_HEIGHT);
    s.(board := Cleared(filled),
       piece := piece,
       timers := s.timers.(down := now + 50, drop := now + 100, nextDown := now + 500),
       tasks := s.tasks + [Fix(piece.moved.x, piece.moved.y)] + ClearTasks(rows) + if HiddenEmpty(Cleared(filled)) then [] else [GameOver],
       cleared := s.cleared + |rows|)
  }

  /** Drop and descent, for a piece that can fall `depth` rows: a drop locks it there; without one a
      descent takes it one row lower, or locks it if it is there already. */
  function Fallen(s: State, now: int, depth: nat): State
    requires s.WellFormed()
  {
    if s.moves[4] && now >= s.timers.drop then LockedAt(s, now, depth)
    else if s.moves[3] && now >= s.timers.down then
      if depth == 0 then LockedAt(s, now, 0)
      else s.(piece := s.piece.Shifted(0, 1), tasks := s.tasks + [Move(MoveDown)],
              timers := s.timers.(down := now + 50, nextDown := now + 500))
    else s
  }

  function Turned(s: State, now: int): (s': State)
    requires s.WellFormed()
    ensures s'.WellFormed() && s'.moves == s.moves
  {
    if s.moves[2] && now >= s.timers.rotate && IsValid(s.board, s.piece.Rotated()) then
      s.(piece := s.piece.Rotated(), tasks := s.tasks + [Move(MoveRotate)], timers := s.timers.(rotate := now + 100))
    else s
  }

  function MovedLeft(s: State, now: int): (s': State)
    requires s.WellFormed()
    ensures s'.WellFormed() && s'.moves == s.moves
  {
    if s.moves[1] && now >= s.timers.left && IsValid(s.board, s.piece.Shifted(-1, 0)) then
      s.(piece := s.piece.Shifted(-1, 0), tasks := s.tasks + [Move(MoveLeft)], timers := s.timers.(left := now + 50))
    else s
  }

  function MovedRight(s: State, now: int): (s': State)
    requires s.WellFormed()
    ensures s'.WellFormed() && s'.moves == s.moves
  {
    if s.moves[0] && now >= s.timers.right && IsValid(s.board, s.piece.Shifted(1, 0)) then
      s.(piece := s.piece.Shifted(1, 0), tasks := s.tasks + [Move(MoveRight)], timers := s.timers.(right := now + 50))
    else s
  }

  /** The turn, then left, then right. */
  function Sides(s: State, now: int): (s': State)
    requires s.WellFormed()
    ensures s'.WellFormed() && s'.moves == s.moves
  {
    MovedRight(MovedLeft(Turned(s, now), now), now)
  }

  /** One round of the input loop. */
  function Round(s: State, i: nat, now: int): (s': State)
    requires s.WellFormed() && i < INPUT_TYPE_COUNT
    ensures s'.WellFormed() && s'.moves == s.moves
  {
    if s.moves[i] then Handled(s, InputOf(i), now) else s
  }

  lemma FiveRounds(s: State, now: int)
    requires s.WellFormed()
    ensures HandledFrom(s, 4, now) == Round(Round(Round(Round(Round(s, 4, now), 3, now), 2, now), 1, now), 0, now)
  {
    hide Handled;
    var s4 := Round(s, 4, now);
    var s3 := Round(s4, 3, now);
    var s2 := Round(s3, 2, now);
    var s1 := Round(s2, 1, now);
    assert HandledFrom(s, 4, now) == HandledFrom(s4, 3, now);
    assert HandledFrom(s4, 3, now) == HandledFrom(s3, 2, now);
    assert HandledFrom(s3, 2, now) == HandledFrom(s2, 1, now);
    assert HandledFrom(s2, 1, now) == HandledFrom(s1, 0, now);
    assert HandledFrom(s1, 0, now) == HandledFrom(Round(s1, 0, now), -1, now);
  }

  lemma TurnRound(s: State, now: int)
    requires s.WellFormed()
    ensures Round(s, 2, now) == Turned(s, now)
  {
    hide IsValid, AfterFix;
  }

  lemma LeftRound(s: State, now: int)
    requires s.WellFormed()
    ensures Round(s, 1, now) == MovedLeft(s, now)
  {
    hide IsValid, AfterFix;
  }

  lemma RightRound(s: State, now: int)
    requires s.WellFormed()
    ensures Round(s, 0, now) == MovedRight(s, now)
  {
    hide IsValid, AfterFix;
  }

  /** A lock, by whichever input, from a state where the piece has already been put in place. */
  lemma LockIsLockedAt(s: State, now: int, depth: nat)
    requires s.WellFormed()
    ensures var piece := s.piece.Shifted(0, depth);
            var fixed := Emitted(s.(piece := piece), Fix(piece.moved.x, piece.moved.y));
            && AfterFix(fixed, now) == LockedAt(s, now, depth)
            && AfterFix(fixed.(timers := s.timers.Recorded(DROP, now)), now) == LockedAt(s, now, depth)
            && LockedAt(s, now, depth).WellFormed()
  {
    hide Filled, Cleared, FullRows, HiddenEmpty, ClearTasks;
    var piece := s.piece.Shifted(0, depth);
    var filled := Filled(s.board, piece.Cells());
    var tasks := s.tasks + [Fix(piece.moved.x, piece.moved.y)] + ClearTasks(FullRows(filled, TOTAL_HEIGHT));
    assert tasks + [] == tasks;
  }

  lemma DropRound(s: State, now: int, depth: nat)
    requires s.WellFormed() && IsValid(s.board, s.piece) && LandsAt(s.board, s.piece, depth)
    ensures Round(s, 4, now) == if s.moves[4] && now >= s.timers.drop then LockedAt(s, now, depth) else s
  {
    if s.moves[4] && now >= s.timers.drop {
      DropInput(s, now, depth);
      LockIsLockedAt(s, now, depth);
      hide AfterFix, LandsAt, LockedAt, MoveInput, IsValid, Emitted, Timers.Recorded, Tetromino.Shifted;
      assert Round(s, 4, now) == Handled(s, DROP, now);
      assert Handled(s, DROP, now) == AfterFix(MoveInput(s, DROP, now).0, now);
    }
  }

  lemma DropInput(s: State, now: int, depth: nat)
    requires s.WellFormed() && IsValid(s.board, s.piece) && LandsAt(s.board, s.piece, depth) && now >= s.timers.drop
    ensures var piece := s.piece.Shifted(0, depth);
            MoveInput(s, DROP, now) ==
              (Emitted(s.(piece := piece), Fix(piece.moved.x, piece.moved.y)).(timers := s.timers.Recorded(DROP, now)), Fixed)
  {
    var l := Landing(s.board, s.piece);
    LandingIsLowest(s.board, s.piece);
    LandingIsUnique(s.board, s.piece, depth, l.moved.y - s.piece.moved.y);
    assert l == s.piece.Shifted(0, depth);
    hide LandsAt, Landing, IsValid;
  }

  lemma DownRound(s: State, now: int, depth: nat)
    requires s.WellFormed() && LandsAt(s.board, s.piece, depth)
    ensures Round(s, 3, now) ==
              if !(s.moves[3] && now >= s.timers.down) then s
              else if depth == 0 then LockedAt(s, now, 0)
              else s.(piece := s.piece.Shifted(0, 1), tasks := s.tasks + [Move(MoveDown)],
                      timers := s.timers.(down := now + 50, nextDown := now + 500))
  {
    FitsBelowShift(s.board, s.piece, 0);
    assert FitsBelow(s.board, s.piece, 1) <==> depth != 0;
    hide AfterFix, LandsAt, IsValid, FitsBelow, LockedAt, MoveInput;
    if s.moves[3] && now >= s.timers.down {
      DownInput(s, now);
      LockIsLockedAt(s, now, 0);
      assert s.piece.Shifted(0, 0) == s.piece && s.(piece := s.piece) == s;
    }
  }

  lemma DownInput(s: State, now: int)
    requires s.WellFormed() && now >= s.timers.down
    ensures MoveInput(s, DOWN, now) ==
              if IsValid(s.board, s.piece.Shifted(0, 1)) then
                (s.(piece := s.piece.Shifted(0, 1), tasks := s.tasks + [Move(MoveDown)],
                    timers := s.timers.(down := now + 50, nextDown := now + 500)), Moved)
              else (Emitted(s, Fix(s.piece.moved.x, s.piece.moved.y)), Fixed)
  {
    hide IsValid;
  }

  /** After a lock the descent is barred. */
  lemma LockedStays(s: State, now: int, depth: nat)
    requires s.WellFormed()
    ensures LockedAt(s, now, depth).WellFormed() && LockedAt(s, now, depth).moves == s.moves
    ensures Round(LockedAt(s, now, depth), 3, now) == LockedAt(s, now, depth)
  {
    hide Filled, Cleared, FullRows, HiddenEmpty, ClearTasks, IsValid, AfterFix;
  }

  lemma FallRounds(s: State, now: int, depth: nat)
    requires s.WellFormed() && IsValid(s.board, s.piece) && LandsAt(s.board, s.piece, depth)
    ensures Fallen(s, now, depth).WellFormed() && Fallen(s, now, depth).moves == s.moves
    ensures Round(Round(s, 4, now), 3, now) == Fallen(s, now, depth)
  {
    hide Round, LockedAt, LandsAt, IsValid;
    DropRound(s, now, depth);
    DownRound(s, now, depth);
    LockedStays(s, now, depth);
    LockedStays(s, now, 0);
  }

  lemma PreparedIsDue(s: State, now: int)
    requires IsReady(s)
    ensures Due(s, now).WellFormed() && Prepared(s, now) == Due(s, now)
  {
    var p, d := Prepared(s, now), Due(s, now);
    assert forall i :: 0 <= i < 5 ==> p.moves[i] == d.moves[i];
    assert p.moves == d.moves;
  }

  /** The whole tick of a piece that can fall `depth` rows: what is due, then drop or descent, then
      the turn, then left, then right. */
  lemma TickWrittenOut(s: State, now: int, depth: nat)
    requires IsReady(s) && IsValid(s.board, s.piece) && LandsAt(s.board, s.piece, depth)
    ensures Due(s, now).WellFormed() && Fallen(Due(s, now), now, depth).WellFormed()
    ensures Ticked(s, now) == Sides(Fallen(Due(s, now), now, depth), now)
  {
    PreparedIsDue(s, now);
    var d := Due(s, now);
    FiveRounds(d, now);
    FallRounds(d, now, depth);
    hide LandsAt, IsValid, Round, Fallen, Due, Turned, MovedLeft, MovedRight;
    var f := Fallen(d, now, depth);
    TurnRound(f, now);
    LeftRound(Turned(f, now), now);
    RightRound(MovedLeft(Turned(f, now), now), now);
  }

  // ---------- What follows for the player ----------

  /** Turns and sideways steps come behind what was there, and lock nothing. */
  lemma SideOnlyMoves(s: State, now: int)
    requires s.WellFormed()
    ensures var s' := Sides(s, now);
            s'.board == s.board && s.tasks <= s'.tasks && (HasFix(s'.tasks) <==> HasFix(s.tasks))
  {
    hide IsValid;
    var turned := Turned(s, now);
    var moved := MovedLeft(turned, now);
    HasFixEmit(s.tasks, Move(MoveRotate));
    HasFixEmit(turned.tasks, Move(MoveLeft));
    HasFixEmit(moved.tasks, Move(MoveRight));
  }

  lemma HasFixEmit(tasks: seq<Task>, t: Task)
    ensures HasFix(tasks + [t]) <==> HasFix(tasks) || t.Fix?
  {
    assert (tasks + [t])[|tasks|] == t;
    if i :| 0 <= i < |tasks| && tasks[i].Fix? {
      assert (tasks + [t])[i].Fix?;
    }
  }

  lemma LockedAtShows(s: State, now: int, depth: nat)
    requires s.WellFormed() && s.tasks == []
    ensures var l := LockedAt(s, now, depth);
            && l.tasks != [] && l.tasks[0] == Fix(s.piece.moved.x, s.piece.moved.y + depth) && HasFix(l.tasks)
            && l.board == Cleared(Filled(s.board, s.piece.Shifted(0, depth).Cells()))
            && l.piece == s.piece.Shifted(0, depth) && l.WellFormed() && l.moves == s.moves
  {
    hide Filled, Cleared, FullRows, HiddenEmpty, ClearTasks;
  }

  lemma DueShows(s: State, now: int)
    requires IsReady(s)
    ensures var d := Due(s, now);
            && d.WellFormed() && d.board == s.board && d.piece == s.piece && d.tasks == []
            && (forall i :: 0 <= i < 5 ==> (d.moves[i] <==> Asked(s, now, i)))
            && d.timers == s.timers.(nextDown := d.timers.nextDown, nextGarbage := d.timers.nextGarbage)
  {
  }

  /** The piece has locked `depth` rows below where it was. */
  ghost predicate HasLocked(s: State, t: State, depth: nat)
    requires s.WellFormed()
  {
    && t.tasks != [] && t.tasks[0] == Fix(s.piece.moved.x, s.piece.moved.y + depth)
    && t.board == Cleared(Filled(s.board, s.piece.Shifted(0, depth).Cells()))
  }

  /** What drop and descent do, by the flags. */
  lemma FallenShows(d: State, now: int, depth: nat)
    requires d.WellFormed() && d.tasks == []
    ensures var f := Fallen(d, now, depth);
            var locks := (d.moves[4] && now >= d.timers.drop) || (d.moves[3] && now >= d.timers.down && depth == 0);
            && f.WellFormed() && f.moves == d.moves
            && (HasFix(f.tasks) <==> locks)
            && (if locks then HasLocked(d, f, depth) && f.piece == d.piece.Shifted(0, depth)
                else f.board == d.board &&
                     if d.moves[3] && now >= d.timers.down then f.piece == d.piece.Shifted(0, 1) && f.tasks == [Move(MoveDown)]
                     else f == d)
  {
    LockedAtShows(d, now, depth);
    LockedAtShows(d, now, 0);
    hide LockedAt, Filled, Cleared;
    HasFixEmit([], Move(MoveDown));
    assert [] + [Move(MoveDown)] == [Move(MoveDown)];
  }

  lemma LockStaysFirst(s: State, f: State, t: State, depth: nat)
    requires s.WellFormed() && HasLocked(s, f, depth) && t.board == f.board && f.tasks <= t.tasks
    ensures HasLocked(s, t, depth)
  {
    hide Filled, Cleared;
  }

  /** Every lock of a tick leaves the piece where it fits and one row lower does not: a tick locks
      exactly when a drop is let through, or a descent finds the piece landed; and it locks the
      piece at the depth where it lands, first of all. Without a lock the cells stay as they are. */
  lemma TickLocksWhereItLands(s: State, now: int, depth: nat)
    requires IsReady(s) && IsValid(s.board, s.piece) && LandsAt(s.board, s.piece, depth)
    ensures var t := Ticked(s, now);
            var locks := (Asked(s, now, 4) && now >= s.timers.drop) || (Asked(s, now, 3) && now >= s.timers.down && depth == 0);
            && (HasFix(t.tasks) <==> locks)
            && (if locks then HasLocked(s, t, depth) else t.board == s.board)
  {
    TickWrittenOut(s, now, depth);
    DueShows(s, now);
    var d := Due(s, now);
    FallenShows(d, now, depth);
    SideOnlyMoves(Fallen(d, now, depth), now);
    hide LandsAt, IsValid, Fallen, Due, Sides, HasFix, HasLocked, Ticked, IsReady, Asked;
    if HasFix(Fallen(d, now, depth).tasks) {
      SameLock(s, d, Fallen(d, now, depth), depth);
      LockStaysFirst(s, Fallen(d, now, depth), Ticked(s, now), depth);
    }
  }

  lemma SameLock(s: State, d: State, f: State, depth: nat)
    requires s.WellFormed() && d.WellFormed() && s.piece == d.piece && s.board == d.board && HasLocked(d, f, depth)
    ensures HasLocked(s, f, depth)
  {
    hide Filled, Cleared;
  }

  /** Nothing is asked to the side. */
  lemma NoSides(s: State, now: int)
    requires s.WellFormed() && !s.moves[0] && !s.moves[1] && !s.moves[2]
    ensures Sides(s, now) == s
  {
  }

  /** A piece that nobody moves falls: when the descent is due and not barred, it is one row lower,
      or locks if there it does not fit. */
  lemma DescentDescends(s: State, now: int)
    requires IsAtRest(s) && IsValid(s.board, s.piece)
    requires now >= s.timers.nextDown && now >= s.timers.down
    ensures var t := Ticked(s, now);
            if IsValid(s.board, s.piece.Shifted(0, 1)) then
              t.board == s.board && t.piece == s.piece.Shifted(0, 1) && t.tasks == [Move(MoveDown)]
            else t.piece == s.piece && HasLocked(s, t, 0)
  {
    assert s.(inputs := []) == s;
    var depth := Landing(s.board, s.piece).moved.y - s.piece.moved.y;
    LandingIsLowest(s.board, s.piece);
    FitsBelowShift(s.board, s.piece, 0);
    assert FitsBelow(s.board, s.piece, 1) <==> depth != 0;
    TickWrittenOut(s, now, depth);
    DueShows(s, now);
    assert !Asked(s, now, 0) && !Asked(s, now, 1) && !Asked(s, now, 2) && Asked(s, now, 3) && !Asked(s, now, 4);
    var d := Due(s, now);
    FallenShows(d, now, depth);
    assert s.piece.Shifted(0, 0) == s.piece;
    hide LandsAt, IsValid, FitsBelow, Landing, Fallen, Due, HasFix, HasLocked, Ticked, IsReady, Asked;
    NoSides(Fallen(d, now, depth), now);
    hide Sides;
    if depth == 0 {
      SameLock(s, d, Fallen(d, now, depth), 0);
    }
  }

  /** Without inputs and with nothing due, a tick changes nothing at all. */
  lemma NothingHappens(s: State, now: int)
    requires IsAtRest(s) && now < s.timers.nextDown && now < s.timers.nextGarbage
    ensures Ticked(s, now) == s
  {
    assert s.(inputs := []) == s;
    PreparedIsDue(s, now);
    var d := Due(s, now);
    assert d.moves == s.moves;
    assert d == s;
    FiveRounds(s, now);
  }

  /** One sideways input. */
  lemma OneSide(s: State, now: int)
    requires s.WellFormed() && s.tasks == []
    ensures s.moves[0] && !s.moves[1] && !s.moves[2] && now >= s.timers.right && IsValid(s.board, s.piece.Shifted(1, 0)) ==>
              Sides(s, now).piece == s.piece.Shifted(1, 0) && Sides(s, now).tasks == [Move(MoveRight)]
    ensures !s.moves[0] && s.moves[1] && !s.moves[2] && now >= s.timers.left && IsValid(s.board, s.piece.Shifted(-1, 0)) ==>
              Sides(s, now).piece == s.piece.Shifted(-1, 0) && Sides(s, now).tasks == [Move(MoveLeft)]
    ensures !s.moves[0] && !s.moves[1] && s.moves[2] && now >= s.timers.rotate && IsValid(s.board, s.piece.Rotated()) ==>
              Sides(s, now).piece == s.piece.Rotated() && Sides(s, now).tasks == [Move(MoveRotate)]
    ensures Sides(s, now).board == s.board
  {
    hide IsValid;
  }

  /** Sideways inputs that are not let through. */
  lemma BlockedSides(s: State, now: int)
    requires s.WellFormed()
    requires s.moves[0] ==> !(now >= s.timers.right && IsValid(s.board, s.piece.Shifted(1, 0)))
    requires s.moves[1] ==> !(now >= s.timers.left && IsValid(s.board, s.piece.Shifted(-1, 0)))
    requires s.moves[2] ==> !(now >= s.timers.rotate && IsValid(s.board, s.piece.Rotated()))
    ensures Sides(s, now) == s
  {
    hide IsValid;
  }

  /** One input and nothing due. Codes outside the five do nothing; neither does an input that is
      barred, or a step onto taken cells. A drop falls as far as it can. */
  lemma SingleInput(s: State, code: int, now: int, depth: nat)
    requires IsReady(s) && s.inputs == [code] && now < s.timers.nextDown
    requires IsValid(s.board, s.piece) && LandsAt(s.board, s.piece, depth)
    ensures var t := Ticked(s, now);
            if code == 0 && now >= s.timers.right && IsValid(s.board, s.piece.Shifted(1, 0)) then
              t.board == s.board && t.piece == s.piece.Shifted(1, 0) && t.tasks == [Move(MoveRight)]
            else if code == 1 && now >= s.timers.left && IsValid(s.board, s.piece.Shifted(-1, 0)) then
              t.board == s.board && t.piece == s.piece.Shifted(-1, 0) && t.tasks == [Move(MoveLeft)]
            else if code == 2 && now >= s.timers.rotate && IsValid(s.board, s.piece.Rotated()) then
              t.board == s.board && t.piece == s.piece.Rotated() && t.tasks == [Move(MoveRotate)]
            else if code == 3 && now >= s.timers.down && depth > 0 then
              t.board == s.board && t.piece == s.piece.Shifted(0, 1) && t.tasks == [Move(MoveDown)]
            else if (code == 3 && now >= s.timers.down) || (code == 4 && now >= s.timers.drop) then
              t.piece == s.piece.Shifted(0, depth) && HasLocked(s, t, depth)
            else t.board == s.board && t.piece == s.piece && t.tasks == []
  {
    TickWrittenOut(s, now, depth);
    DueShows(s, now);
    assert forall c :: Asked(s, now, c) <==> c == code;
    var d := Due(s, now);
    FallenShows(d, now, depth);
    hide LandsAt, Fallen, Due, HasFix, HasLocked, Ticked, IsReady, Asked, Sides, IsValid;
    var f := Fallen(d, now, depth);
    if 0 <= code <= 2 {
      OneSide(f, now);
      if f.tasks == [] && !((code == 0 && now >= s.timers.right && IsValid(s.board, s.piece.Shifted(1, 0))) ||
                            (code == 1 && now >= s.timers.left && IsValid(s.board, s.piece.Shifted(-1, 0))) ||
                            (code == 2 && now >= s.timers.rotate && IsValid(s.board, s.piece.Rotated()))) {
        BlockedSides(f, now);
      }
    } else {
      NoSides(f, now);
      if HasLocked(d, f, depth) {
        SameLock(s, d, f, depth);
      }
    }
  }
}
