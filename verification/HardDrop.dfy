/** The hard drop of the server and the landing preview of the client. */
module HardDrop {
  import opened Tetromino
  import opened Board
  import opened Timing
  import opened TickSpec
  import opened Replay
  import CB = ClientBoard

  predicate FitsBelow(b: Board, t: Tetromino, k: int)
    requires t.WellFormed()
  {
    IsValid(b, t.Shifted(0, k))
  }

  /** Falling `depth` rows is possible and falling one more is not. */
  ghost predicate LandsAt(b: Board, t: Tetromino, depth: nat)
    requires t.WellFormed()
  {
    && (forall k :: 0 <= k <= depth ==> FitsBelow(b, t, k))
    && !FitsBelow(b, t, depth + 1)
  }

  lemma FitsBelowShift(b: Board, t: Tetromino, k: int)
    requires t.WellFormed()
    ensures FitsBelow(b, t.Shifted(0, 1), k) <==> FitsBelow(b, t, k + 1)
    ensures FitsBelow(b, t, 0) <==> IsValid(b, t)
    ensures FitsBelow(b, t, 1) <==> IsValid(b, t.Shifted(0, 1))
  {
    assert t.Shifted(0, 1).Shifted(0, k) == t.Shifted(0, k + 1) && t.Shifted(0, 0) == t;
  }

  /** There is exactly one such depth, and it is where the piece lands. */
  lemma {:induction false} LandingIsLowest(b: Board, t: Tetromino)
    requires t.WellFormed() && IsValid(b, t)
    ensures LandsAt(b, t, Landing(b, t).moved.y - t.moved.y)
    decreases Landing(b, t).moved.y - t.moved.y
  {
    hide FitsBelow;
    var down := t.Shifted(0, 1);
    FitsBelowShift(b, t, 0);
    if IsValid(b, down) {
      LandingIsLowest(b, down);
      var depth := Landing(b, down).moved.y - down.moved.y;
      forall k | 0 < k <= depth + 2
        ensures FitsBelow(b, t, k) <==> FitsBelow(b, down, k - 1)
      {
        FitsBelowShift(b, t, k - 1);
      }
    }
  }

  lemma LandingIsUnique(b: Board, t: Tetromino, d: nat, e: nat)
    requires t.WellFormed() && LandsAt(b, t, d) && LandsAt(b, t, e)
    ensures d == e
  {
  }

  /** A drop input locks the piece at the unique depth it can fall to, in one step. */
  lemma DropLocksAtLanding(s: State, now: int, depth: nat)
    requires s.WellFormed() && IsValid(s.board, s.piece) && s.timers.Allows(DROP, now)
    ensures var (r, result) := MoveInput(s, DROP, now);
            result == Fixed &&
            (LandsAt(s.board, s.piece, depth) <==>
             r.tasks == s.tasks + [Fix(s.piece.moved.x, s.piece.moved.y + depth)])
  {
    var l := Landing(s.board, s.piece);
    LandingIsLowest(s.board, s.piece);
    if LandsAt(s.board, s.piece, depth) {
      LandingIsUnique(s.board, s.piece, depth, l.moved.y - s.piece.moved.y);
    } else {
      var task := Fix(l.moved.x, l.moved.y);
      assert (s.tasks + [task])[|s.tasks|] == task;
      assert depth != l.moved.y - s.piece.moved.y;
    }
  }

  lemma FreeIsValid(grid: CB.Grid, b: Board, t: Tetromino)
    requires Shows(grid, b) && t.WellFormed()
    ensures Shown(t).Known() && (CB.IsFree(grid, Shown(t)) <==> IsValid(b, t))
  {
    ShownIsKnown(t);
  }

  lemma FreeAtIsFitsBelow(grid: CB.Grid, b: Board, t: Tetromino, k: int)
    requires Shows(grid, b) && t.WellFormed()
    ensures Shown(t).Known() && (CB.IsFreeAt(grid, Shown(t), t.moved.y + k) <==> FitsBelow(b, t, k))
  {
    ShownIsKnown(t);
    assert Shown(t.Shifted(0, k)) == Shown(t).(y := t.moved.y + k);
    FreeIsValid(grid, b, t.Shifted(0, k));
  }

  /** Any answer `MakeLandingTetromino` may give on a board that shows the server's is the
      position the server's hard drop would lock. */
  lemma PreviewIsHardDrop(grid: CB.Grid, b: Board, t: Tetromino, landing: CB.Piece)
    requires Shows(grid, b) && t.WellFormed() && IsValid(b, t)
    requires Shown(t).Known()
    requires landing == Shown(t).(y := landing.y) && landing.y >= t.moved.y
    requires forall y :: t.moved.y < y <= landing.y ==> CB.IsFreeAt(grid, Shown(t), y)
    requires !CB.IsFreeAt(grid, Shown(t), landing.y + 1)
    ensures landing == Shown(Landing(b, t))
  {
    hide FitsBelow, CB.IsFreeAt, IsValid;
    var depth := landing.y - t.moved.y;
    FitsBelowShift(b, t, 0);
    forall k | 0 < k <= depth + 1
      ensures CB.IsFreeAt(grid, Shown(t), t.moved.y + k) <==> FitsBelow(b, t, k)
    {
      FreeAtIsFitsBelow(grid, b, t, k);
    }
    assert LandsAt(b, t, depth);
    LandingIsLowest(b, t);
    LandingIsUnique(b, t, depth, Landing(b, t).moved.y - t.moved.y);
  }
}
