/** Boards as values: what locking, line clearing and garbage do to the occupied cells,
    said without the loops of the program. */
module Board {
  import opened Tetromino

  const HIDDEN_HEIGHT: nat := 5
  const BOARD_WIDTH: nat := 10
  const TOTAL_HEIGHT: nat := 25

  type Row = r: seq<bool> | |r| == BOARD_WIDTH witness seq(BOARD_WIDTH, _ => false)
  type Board = b: seq<Row> | |b| == TOTAL_HEIGHT witness seq(TOTAL_HEIGHT, _ => EmptyRow())

  function EmptyRow(): (r: Row)
    ensures forall x :: 0 <= x < BOARD_WIDTH ==> !r[x]
  {
    seq(BOARD_WIDTH, _ => false)
  }

  function EmptyRows(n: nat): (rows: seq<Row>)
    ensures |rows| == n && forall i :: 0 <= i < n ==> rows[i] == EmptyRow()
  {
    seq(n, _ => EmptyRow())
  }

  function EmptyBoard(): Board {
    EmptyRows(TOTAL_HEIGHT)
  }

  predicate IsFull(r: Row) {
    forall x :: 0 <= x < BOARD_WIDTH ==> r[x]
  }

  function GarbageRow(hole: int): (r: Row)
    requires 0 <= hole < BOARD_WIDTH
    ensures forall x :: 0 <= x < BOARD_WIDTH ==> r[x] == (x != hole)
  {
    seq(BOARD_WIDTH, x => x != hole)
  }

  predicate InBounds(p: Position) {
    0 <= p.x < BOARD_WIDTH && 0 <= p.y < TOTAL_HEIGHT
  }

  predicate Occupied(b: Board, p: Position) {
    InBounds(p) && b[p.y][p.x]
  }

  predicate AllInBounds(t: Tetromino)
    requires t.WellFormed()
  {
    forall i :: 0 <= i < 4 ==> InBounds(t.Cells()[i])
  }

  /** The piece lies inside the board on free cells only. */
  predicate IsValid(b: Board, t: Tetromino)
    requires t.WellFormed()
  {
    forall i :: 0 <= i < 4 ==> InBounds(t.Cells()[i]) && !b[t.Cells()[i].y][t.Cells()[i].x]
  }

  predicate HiddenEmpty(b: Board) {
    forall y, x :: 0 <= y < HIDDEN_HEIGHT && 0 <= x < BOARD_WIDTH ==> !b[y][x]
  }

  predicate NoFullVisibleRow(b: Board) {
    forall y :: HIDDEN_HEIGHT <= y < TOTAL_HEIGHT ==> !IsFull(b[y])
  }

  // ---------- Locking a piece ----------

  function SetCell(b: Board, p: Position): (b': Board)
    ensures forall q :: Occupied(b', q) <==> Occupied(b, q) || (q == p && InBounds(p))
  {
    if InBounds(p) then b[p.y := b[p.y][p.x := true]] else b
  }

  function Filled(b: Board, cells: seq<Position>): (b': Board)
    ensures forall q :: Occupied(b', q) <==> Occupied(b, q) || (q in cells && InBounds(q))
    decreases |cells|
  {
    if cells == [] then b else
      assert cells == [cells[0]] + cells[1..];
      Filled(SetCell(b, cells[0]), cells[1..])
  }

  // ---------- Line clearing ----------

  /** The rows that are not full, in order. */
  function Kept(rows: seq<Row>): (kept: seq<Row>)
    ensures |kept| <= |rows|
    ensures forall i :: 0 <= i < |kept| ==> kept[i] in rows && !IsFull(kept[i])
  {
    if rows == [] then []
    else if IsFull(rows[0]) then Kept(rows[1..])
    else [rows[0]] + Kept(rows[1..])
  }

  /** The board when the visible rows above `y` have been cleared: the full ones are gone,
      as many empty rows stand on top, and the rows from `y` down have not moved. */
  function ClearedAbove(b: Board, y: nat): Board
    requires HIDDEN_HEIGHT <= y <= TOTAL_HEIGHT
  {
    var kept := Kept(b[HIDDEN_HEIGHT..y]);
    EmptyRows(y - HIDDEN_HEIGHT - |kept|) + b[..HIDDEN_HEIGHT] + kept + b[y..]
  }

  /** All full visible rows dropped and as many empty rows prepended. */
  function Cleared(b: Board): Board {
    ClearedAbove(b, TOTAL_HEIGHT)
  }

  /** The visible row indices below `y` that are full, from top to bottom. */
  function FullRows(b: Board, y: nat): (rows: seq<int>)
    requires HIDDEN_HEIGHT <= y <= TOTAL_HEIGHT
    ensures forall i :: 0 <= i < |rows| ==> HIDDEN_HEIGHT <= rows[i] < y && IsFull(b[rows[i]])
    ensures forall r :: HIDDEN_HEIGHT <= r < y && IsFull(b[r]) ==> r in rows
    ensures forall i, j :: 0 <= i < j < |rows| ==> rows[i] < rows[j]
  {
    if y == HIDDEN_HEIGHT then []
    else if IsFull(b[y - 1]) then FullRows(b, y - 1) + [y - 1]
    else FullRows(b, y - 1)
  }

  /** Take row `y` out and put an empty row on top. */
  function RowRemoved(b: Board, y: nat): Board
    requires y < TOTAL_HEIGHT
  {
    [EmptyRow()] + b[..y] + b[y + 1..]
  }

  lemma KeptAppend(rows: seq<Row>, last: Row)
    ensures Kept(rows + [last]) == Kept(rows) + if IsFull(last) then [] else [last]
  {
    if rows == [] {
      assert rows + [last] == [last];
    } else {
      assert (rows + [last])[1..] == rows[1..] + [last];
      KeptAppend(rows[1..], last);
    }
  }

  /** One step of the clearing loop. */
  lemma ClearedAboveStep(b: Board, y: nat)
    requires HIDDEN_HEIGHT <= y < TOTAL_HEIGHT
    ensures ClearedAbove(b, y)[y] == b[y]
    ensures !IsFull(b[y]) ==> ClearedAbove(b, y + 1) == ClearedAbove(b, y)
    ensures IsFull(b[y]) ==> ClearedAbove(b, y + 1) == RowRemoved(ClearedAbove(b, y), y)
  {
    hide IsFull, Kept;
    var rows := b[HIDDEN_HEIGHT..y];
    assert b[HIDDEN_HEIGHT..y + 1] == rows + [b[y]];
    KeptAppend(rows, b[y]);
    var top := EmptyRows(y - HIDDEN_HEIGHT - |Kept(rows)|);
    var above := top + b[..HIDDEN_HEIGHT] + Kept(rows);
    assert ClearedAbove(b, y) == above + [b[y]] + b[y + 1..] && |above| == y;
    if IsFull(b[y]) {
      assert ClearedAbove(b, y + 1) == [EmptyRow()] + above + b[y + 1..];
    } else {
      assert ClearedAbove(b, y + 1) == above + [b[y]] + b[y + 1..];
    }
  }

  lemma FullRowsStep(b: Board, y: nat)
    requires HIDDEN_HEIGHT < y <= TOTAL_HEIGHT
    ensures |FullRows(b, y)| == |FullRows(b, y - 1)| + if IsFull(b[y - 1]) then 1 else 0
    ensures FullRows(b, HIDDEN_HEIGHT) == []
  {
    hide IsFull;
  }

  lemma {:induction false} FullRowsCount(b: Board, y: nat)
    requires HIDDEN_HEIGHT <= y <= TOTAL_HEIGHT
    ensures |FullRows(b, y)| == y - HIDDEN_HEIGHT - |Kept(b[HIDDEN_HEIGHT..y])|
  {
    hide IsFull, FullRows;
    FullRowsStep(b, TOTAL_HEIGHT);
    if y > HIDDEN_HEIGHT {
      FullRowsStep(b, y);
      FullRowsCount(b, y - 1);
      assert b[HIDDEN_HEIGHT..y] == b[HIDDEN_HEIGHT..y - 1] + [b[y - 1]];
      KeptAppend(b[HIDDEN_HEIGHT..y - 1], b[y - 1]);
    }
  }

  /** After clearing no visible row is full, provided no hidden row was. */
  lemma ClearedHasNoFullRow(b: Board)
    requires forall y :: 0 <= y < HIDDEN_HEIGHT ==> !IsFull(b[y])
    ensures NoFullVisibleRow(Cleared(b))
  {
    var c := Cleared(b);
    var kept := Kept(b[HIDDEN_HEIGHT..TOTAL_HEIGHT]);
    var k := TOTAL_HEIGHT - HIDDEN_HEIGHT - |kept|;
    assert !EmptyRow()[0];
    forall y | HIDDEN_HEIGHT <= y < TOTAL_HEIGHT
      ensures !IsFull(c[y])
    {
      if y < k {
        assert c[y] == EmptyRow();
      } else if y < k + HIDDEN_HEIGHT {
        assert c[y] == b[y - k];
      } else {
        assert c[y] == kept[y - k - HIDDEN_HEIGHT];
      }
    }
  }

  lemma {:induction false} KeptJoin(a: seq<Row>, b: seq<Row>)
    ensures Kept(a + b) == Kept(a) + Kept(b)
  {
    if a == [] {
      assert a + b == b;
    } else {
      assert (a + b)[1..] == a[1..] + b;
      KeptJoin(a[1..], b);
    }
  }

  /** The full visible rows from `from` on, above `to`. */
  function FullBetween(b: Board, from: nat, to: nat): set<nat> {
    set r: nat | HIDDEN_HEIGHT <= r < TOTAL_HEIGHT && from <= r < to && IsFull(b[r])
  }

  lemma FullBetweenStep(b: Board, y: nat)
    requires HIDDEN_HEIGHT < y <= TOTAL_HEIGHT
    ensures var fewer := FullBetween(b, HIDDEN_HEIGHT, y - 1);
            y - 1 !in fewer && FullBetween(b, HIDDEN_HEIGHT, y) == if IsFull(b[y - 1]) then fewer + {y - 1} else fewer
    ensures FullBetween(b, HIDDEN_HEIGHT, HIDDEN_HEIGHT) == {}
  {
    hide IsFull;
  }

  lemma {:induction false} FullRowsAre(b: Board, y: nat)
    requires HIDDEN_HEIGHT <= y <= TOTAL_HEIGHT
    ensures |FullRows(b, y)| == |FullBetween(b, HIDDEN_HEIGHT, y)|
  {
    hide IsFull, FullBetween, FullRows;
    FullRowsStep(b, TOTAL_HEIGHT);
    FullBetweenStep(b, TOTAL_HEIGHT);
    if y > HIDDEN_HEIGHT {
      FullRowsStep(b, y);
      FullBetweenStep(b, y);
      FullRowsAre(b, y - 1);
    }
  }

  /** How many full rows lie below row `y`. */
  function FullBelow(b: Board, y: nat): nat {
    |FullBetween(b, y + 1, TOTAL_HEIGHT)|
  }

  lemma FullBetweenSplit(b: Board, y: nat)
    requires y < TOTAL_HEIGHT && (y >= HIDDEN_HEIGHT ==> !IsFull(b[y]))
    ensures var (all, below) := (FullBetween(b, HIDDEN_HEIGHT, TOTAL_HEIGHT), FullBetween(b, y + 1, TOTAL_HEIGHT));
            if y < HIDDEN_HEIGHT then all == below
            else var above := FullBetween(b, HIDDEN_HEIGHT, y); above !! below && all == above + below
  {
    hide IsFull;
  }

  lemma FullRowsSplit(b: Board, y: nat)
    requires y < TOTAL_HEIGHT && (y >= HIDDEN_HEIGHT ==> !IsFull(b[y]))
    ensures |FullRows(b, TOTAL_HEIGHT)| == FullBelow(b, y) + if y < HIDDEN_HEIGHT then 0 else |FullRows(b, y)|
  {
    hide IsFull, FullRows, FullBetween;
    FullBetweenSplit(b, y);
    FullRowsAre(b, TOTAL_HEIGHT);
    if y >= HIDDEN_HEIGHT {
      FullRowsAre(b, y);
      DisjointSum(FullBetween(b, HIDDEN_HEIGHT, y), FullBetween(b, y + 1, TOTAL_HEIGHT));
    }
  }

  lemma DisjointSum(a: set<nat>, b: set<nat>)
    requires a !! b
    ensures |a + b| == |a| + |b|
  {
  }

  /** A row that is kept is found behind the kept rows above it. */
  lemma KeptAt(rows: seq<Row>, i: nat)
    requires i < |rows| && !IsFull(rows[i])
    ensures |Kept(rows[..i])| < |Kept(rows)| && Kept(rows)[|Kept(rows[..i])|] == rows[i]
  {
    hide IsFull;
    assert rows == rows[..i] + rows[i..];
    KeptJoin(rows[..i], rows[i..]);
    assert Kept(rows[i..]) == [rows[i]] + Kept(rows[i..][1..]);
  }

  /** Where the rows of a cleared board come from. */
  lemma ClearedRows(b: Board)
    ensures var (n, kept) := (|FullRows(b, TOTAL_HEIGHT)|, Kept(b[HIDDEN_HEIGHT..]));
            && n + |kept| == TOTAL_HEIGHT - HIDDEN_HEIGHT
            && (forall r :: 0 <= r < n ==> Cleared(b)[r] == EmptyRow())
            && (forall r :: 0 <= r < HIDDEN_HEIGHT ==> Cleared(b)[n + r] == b[r])
            && (forall r :: 0 <= r < |kept| ==> Cleared(b)[n + HIDDEN_HEIGHT + r] == kept[r])
  {
    hide IsFull, Kept, FullRows;
    FullRowsCount(b, TOTAL_HEIGHT);
    assert b[HIDDEN_HEIGHT..TOTAL_HEIGHT] == b[HIDDEN_HEIGHT..];
  }

  /** Gravity: a row that is not cleared falls by the number of full rows below it, the hidden rows
      by all of them; what is left at the top is empty. */
  lemma RowsFall(b: Board, y: nat)
    requires y < TOTAL_HEIGHT && (y >= HIDDEN_HEIGHT ==> !IsFull(b[y]))
    ensures y + FullBelow(b, y) < TOTAL_HEIGHT && Cleared(b)[y + FullBelow(b, y)] == b[y]
    ensures |FullRows(b, TOTAL_HEIGHT)| <= TOTAL_HEIGHT
    ensures forall r :: 0 <= r < |FullRows(b, TOTAL_HEIGHT)| ==> Cleared(b)[r] == EmptyRow()
  {
    hide IsFull, FullBelow, Cleared, Kept, FullRows;
    ClearedRows(b);
    FullRowsSplit(b, y);
    if y >= HIDDEN_HEIGHT {
      var i := y - HIDDEN_HEIGHT;
      FullRowsCount(b, y);
      assert b[HIDDEN_HEIGHT..][..i] == b[HIDDEN_HEIGHT..y] && b[HIDDEN_HEIGHT..][i] == b[y];
      KeptAt(b[HIDDEN_HEIGHT..], i);
    }
  }

  // ---------- Garbage ----------

  /** Everything moves up one row and a garbage row comes in below. */
  function PushedUp(b: Board, hole: int): Board
    requires 0 <= hole < BOARD_WIDTH
  {
    b[1..] + [GarbageRow(hole)]
  }

  lemma GarbageRowNotFull(hole: int)
    requires 0 <= hole < BOARD_WIDTH
    ensures !IsFull(GarbageRow(hole))
  {
    assert !GarbageRow(hole)[hole];
  }

  // ---------- Counting filled cells ----------

  function RowCount(r: seq<bool>): nat {
    if r == [] then 0 else (if r[0] then 1 else 0) + RowCount(r[1..])
  }

  function Count(rows: seq<Row>): nat {
    if rows == [] then 0 else RowCount(rows[0]) + Count(rows[1..])
  }

  lemma CountAppend(a: seq<Row>, b: seq<Row>)
    ensures Count(a + b) == Count(a) + Count(b)
  {
    if a == [] {
      assert a + b == b;
    } else {
      assert (a + b)[1..] == a[1..] + b;
      CountAppend(a[1..], b);
    }
  }

  lemma {:induction false} RowCountSet(r: seq<bool>, x: nat)
    requires x < |r| && !r[x]
    ensures RowCount(r[x := true]) == RowCount(r) + 1
  {
    if x == 0 {
      assert r[0 := true][1..] == r[1..];
    } else {
      assert r[x := true][1..] == r[1..][x - 1 := true];
      RowCountSet(r[1..], x - 1);
    }
  }

  lemma {:induction false} RowCountAllEqual(r: seq<bool>, v: bool)
    requires forall x :: 0 <= x < |r| ==> r[x] == v
    ensures RowCount(r) == if v then |r| else 0
  {
    if r != [] {
      RowCountAllEqual(r[1..], v);
    }
  }

  lemma GarbageRowCount(hole: int)
    requires 0 <= hole < BOARD_WIDTH
    ensures RowCount(GarbageRow(hole)) == BOARD_WIDTH - 1
  {
    var r := GarbageRow(hole);
    RowCountSet(r, hole);
    RowCountAllEqual(r[hole := true], true);
  }

  lemma {:induction false} EmptyRowsCount(rows: seq<Row>)
    requires forall y, x :: 0 <= y < |rows| && 0 <= x < BOARD_WIDTH ==> !rows[y][x]
    ensures Count(rows) == 0
  {
    if rows != [] {
      RowCountAllEqual(rows[0], false);
      EmptyRowsCount(rows[1..]);
    }
  }

  lemma SetCellCount(b: Board, p: Position)
    requires InBounds(p) && !Occupied(b, p)
    ensures Count(SetCell(b, p)) == Count(b) + 1
  {
    var row := b[p.y];
    var row' := row[p.x := true];
    RowCountSet(row, p.x);
    assert b == b[..p.y] + ([row] + b[p.y + 1..]);
    assert SetCell(b, p) == b[..p.y] + ([row'] + b[p.y + 1..]);
    CountAppend(b[..p.y], [row] + b[p.y + 1..]);
    CountAppend(b[..p.y], [row'] + b[p.y + 1..]);
    CountAppend([row], b[p.y + 1..]);
    CountAppend([row'], b[p.y + 1..]);
    assert Count([row]) == RowCount(row) && Count([row']) == RowCount(row');
  }

  lemma {:induction false} FilledCount(b: Board, cells: seq<Position>)
    requires forall i :: 0 <= i < |cells| ==> InBounds(cells[i]) && !Occupied(b, cells[i])
    requires forall i, j :: 0 <= i < j < |cells| ==> cells[i] != cells[j]
    ensures Count(Filled(b, cells)) == Count(b) + |cells|
    decreases |cells|
  {
    if cells != [] {
      SetCellCount(b, cells[0]);
      FilledCount(SetCell(b, cells[0]), cells[1..]);
    }
  }

  lemma {:induction false} KeptCount(rows: seq<Row>)
    ensures Count(rows) == Count(Kept(rows)) + BOARD_WIDTH * (|rows| - |Kept(rows)|)
  {
    if rows != [] {
      KeptCount(rows[1..]);
      if IsFull(rows[0]) {
        RowCountAllEqual(rows[0], true);
      }
    }
  }

  lemma StackCount(n: nat, hidden: seq<Row>, kept: seq<Row>)
    ensures Count(EmptyRows(n) + hidden + kept) == Count(hidden) + Count(kept)
  {
    EmptyRowsCount(EmptyRows(n));
    CountAppend(EmptyRows(n), hidden);
    CountAppend(EmptyRows(n) + hidden, kept);
  }

  /** Clearing takes ten cells away for every row it clears, and nothing else. */
  lemma ClearedCount(b: Board)
    ensures Count(b) == Count(Cleared(b)) + BOARD_WIDTH * |FullRows(b, TOTAL_HEIGHT)|
  {
    var hidden, rows := b[..HIDDEN_HEIGHT], b[HIDDEN_HEIGHT..TOTAL_HEIGHT];
    FullRowsCount(b, TOTAL_HEIGHT);
    KeptCount(rows);
    assert b == hidden + rows;
    CountAppend(hidden, rows);
    StackCount(TOTAL_HEIGHT - HIDDEN_HEIGHT - |Kept(rows)|, hidden, Kept(rows));
    assert Cleared(b) == EmptyRows(TOTAL_HEIGHT - HIDDEN_HEIGHT - |Kept(rows)|) + hidden + Kept(rows);
  }

  /** A garbage line adds nine cells, less what stood in the top row, which is pushed out. */
  lemma PushedUpCount(b: Board, hole: int)
    requires 0 <= hole < BOARD_WIDTH
    ensures Count(PushedUp(b, hole)) == Count(b) + BOARD_WIDTH - 1 - RowCount(b[0])
    ensures HiddenEmpty(b) ==> RowCount(b[0]) == 0
  {
    GarbageRowCount(hole);
    assert b == [b[0]] + b[1..];
    if HiddenEmpty(b) {
      RowCountAllEqual(b[0], false);
    }
    CountAppend(b[1..], [GarbageRow(hole)]);
    assert Count([GarbageRow(hole)]) == RowCount(GarbageRow(hole));
  }
}
