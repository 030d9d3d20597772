/** The client's board: it knows nothing of the server's state and is driven by in-game
    packets alone. Lists have Python's indexing, so a bad index is an exception, modelled as
    `None` in the functions and as `raised` in the methods. */
module ClientBoard {
  import opened Tetromino
  import opened Packets

  const BOARD_ROWS: nat := 25
  const BOARD_COLS: nat := 10

  /** A grid cell holds the letter of a kind, 'G' for garbage, or nothing. */
  datatype Cell = Empty | Block(key: char)

  type Grid = seq<seq<Cell>>

  datatype Piece = Piece(key: char, x: int, y: int, rotation: nat) {

    predicate Known() {
      rotation < ClientRotations(key)
    }

    function Blocks(): (blocks: seq<Position>)
      requires Known()
      ensures |blocks| == 4
      ensures forall i :: 0 <= i < 4 ==>
                blocks[i] == Position(x + ClientShape(key, rotation)[i].x, y + ClientShape(key, rotation)[i].y)
    {
      seq(4, (i: int) requires 0 <= i < 4 => Position(x + ClientShape(key, rotation)[i].x, y + ClientShape(key, rotation)[i].y))
    }

    function Rotated(): Piece
      requires Known()
    {
      this.(rotation := (rotation + 1) % ClientRotations(key))
    }
  }

  /** The part of a client's state that packets drive. */
  datatype Client = Client(grid: Grid, current: Option<Piece>, nextKey: Option<char>)

  /** The list position a Python index means, if it means one. */
  function Index(i: int, length: nat): (r: Option<nat>)
    ensures r.Some? ==> r.value < length && (r.value - i) % length == 0
    ensures r.Some? <==> -(length as int) <= i < length
  {
    if 0 <= i < length then Some(i) else if -(length as int) <= i < 0 then Some(i + length) else None
  }

  function EmptyLine(): seq<Cell> {
    seq(BOARD_COLS, _ => Empty)
  }

  function EmptyGrid(): Grid {
    seq(BOARD_ROWS, _ => EmptyLine())
  }

  function GridSet(grid: Grid, p: Position, key: char): Option<Grid> {
    match Index(p.y, |grid|)
    case None => None
    case Some(y) =>
      match Index(p.x, |grid[y]|)
      case None => None
      case Some(x) => Some(grid[y := grid[y][x := Block(key)]])
  }

  function GridFilled(grid: Grid, cells: seq<Position>, key: char): Option<Grid>
    decreases |cells|
  {
    if cells == [] then Some(grid)
    else match GridSet(grid, cells[0], key)
      case None => None
      case Some(g) => GridFilled(g, cells[1..], key)
  }

  function RowDeleted(grid: Grid, i: int): Option<Grid> {
    match Index(i, |grid|)
    case None => None
    case Some(y) => Some([EmptyLine()] + grid[..y] + grid[y + 1..])
  }

  function GarbageLine(hole: int): Option<seq<Cell>> {
    match Index(hole, BOARD_COLS)
    case None => None
    case Some(x) => Some(seq(BOARD_COLS, _ => Block('G'))[x := Empty])
  }

  function LineAppended(grid: Grid, hole: int): Option<Grid> {
    match GarbageLine(hole)
    case None => None
    case Some(line) => Some((grid + [line])[1..])
  }

  function MovedBy(p: Piece, move: int): Piece
    requires p.Known()
  {
    if move == 1 then p.(x := p.x - 1)
    else if move == 0 then p.(x := p.x + 1)
    else if move == 3 then p.(y := p.y + 1)
    else if move == 2 then p.Rotated()
    else if move == 5 then p.(y := p.y - 1)
    else p
  }

  /** What one in-game packet does to the client; the pieces it holds are always `Known`
      (kind 7, the letter 'G', has no shape and raises here rather than when it is first drawn). */
  function Applied(c: Client, p: Packet): Option<Client>
    requires c.current.Some? ==> c.current.value.Known()
  {
    match p
    case MovePacket(_, move) =>
      if c.current.None? then Some(c) else Some(c.(current := Some(MovedBy(c.current.value, move))))
    case SpawnPacket(_, kind, next, x, y) =>
      if 0 <= kind < 7 && 0 <= next <= 7 then
        Some(c.(current := Some(Piece(ShapeKey(kind), x, y, 0)), nextKey := Some(ShapeKey(next))))
      else None
    case FixPacket(_, x, y) =>
      if c.current.None? then Some(c)
      else
        var piece := c.current.value.(x := x, y := y);
        (match GridFilled(c.grid, piece.Blocks(), piece.key)
         case None => None
         case Some(g) => Some(c.(grid := g, current := None)))
    case ClearLinePacket(_, line, _, _) =>
      (match RowDeleted(c.grid, line)
       case None => None
       case Some(g) => Some(c.(grid := g)))
    case AddLinePacket(_, hole) =>
      (match LineAppended(c.grid, hole)
       case None => None
       case Some(g) => Some(c.(grid := g)))
    case GameOverPacket(_) => Some(c)
    case GameEndPacket(_) => Some(c)
  }

  lemma AppliedKnown(c: Client, p: Packet)
    requires c.current.Some? ==> c.current.value.Known()
    ensures var r := Applied(c, p);
            r.Some? && r.value.current.Some? ==> r.value.current.value.Known()
  {
  }

  /** The packets of a stream applied in order. */
  function Replayed(c: Client, packets: seq<Packet>): (r: Option<Client>)
    requires c.current.Some? ==> c.current.value.Known()
    ensures r.Some? && r.value.current.Some? ==> r.value.current.value.Known()
  {
    if packets == [] then Some(c)
    else
      match Replayed(c, packets[..|packets| - 1])
      case None => None
      case Some(before) =>
        AppliedKnown(before, packets[|packets| - 1]);
        Applied(before, packets[|packets| - 1])
  }

  // ---------- The landing preview ----------

  predicate IsFree(grid: Grid, p: Piece)
    requires p.Known()
    requires |grid| == BOARD_ROWS && forall y :: 0 <= y < BOARD_ROWS ==> |grid[y]| == BOARD_COLS
  {
    forall i :: 0 <= i < 4 ==>
      var b := p.Blocks()[i];
      0 <= b.x < BOARD_COLS && 0 <= b.y < BOARD_ROWS && grid[b.y][b.x].Empty?
  }

  /** The piece is free when moved to row `y`. */
  predicate IsFreeAt(grid: Grid, p: Piece, y: int)
    requires p.Known()
    requires |grid| == BOARD_ROWS && forall r :: 0 <= r < BOARD_ROWS ==> |grid[r]| == BOARD_COLS
  {
    IsFree(grid, p.(y := y))
  }

  // ---------- The mutable board ----------

  class TetrisBoard {
    var grid: Grid
    var current: Option<Piece>
    var nextKey: Option<char>

    ghost predicate Valid()
      reads this
    {
      current.Some? ==> current.value.Known()
    }

    function View(): Client
      reads this
    {
      Client(grid, current, nextKey)
    }

    constructor ()
      ensures Valid() && View() == Client(EmptyGrid(), None, None)
    {
      grid, current, nextKey := EmptyGrid(), None, None;
    }

    method Clear()
      modifies this
      ensures Valid() && View() == Client(EmptyGrid(), None, None)
    {
      grid, current, nextKey := EmptyGrid(), None, None;
    }

    method Fix(fixX: int, fixY: int) returns (raised: bool)
      requires Valid()
      modifies this
      ensures Valid() && raised == Applied(old(View()), FixPacket(0, fixX, fixY)).None?
      ensures !raised ==> View() == Applied(old(View()), FixPacket(0, fixX, fixY)).value
    {
      if current.None? {
        return false;
      }
      current := Some(current.value.(x := fixX, y := fixY));
      var piece := current.value;
      var cells := piece.Blocks();
      for i := 0 to 4
        invariant current == Some(piece) && nextKey == old(nextKey)
        invariant GridFilled(grid, cells[i..], piece.key) == GridFilled(old(grid), cells, piece.key)
      {
        assert cells[i..][0] == cells[i] && cells[i..][1..] == cells[i + 1..];
        var next := GridSet(grid, cells[i], piece.key);
        if next.None? {
          return true;
        }
        grid := next.value;
      }
      current := None;
      return false;
    }

    method ClearLines(rowIndex: int) returns (raised: bool)
      requires Valid()
      modifies this`grid
      ensures Valid() && raised == RowDeleted(old(grid), rowIndex).None?
      ensures grid == if raised then old(grid) else RowDeleted(old(grid), rowIndex).value
    {
      var y := Index(rowIndex, |grid|);
      if y.None? {
        return true;
      }
      grid := grid[..y.value] + grid[y.value + 1..];
      grid := [EmptyLine()] + grid;
      return false;
    }

    method AddLine(hole: int) returns (raised: bool)
      requires Valid()
      modifies this`grid
      ensures Valid() && raised == LineAppended(old(grid), hole).None?
      ensures grid == if raised then old(grid) else LineAppended(old(grid), hole).value
    {
      var newLine := seq(BOARD_COLS, _ => Block('G'));
      var x := Index(hole, BOARD_COLS);
      if x.None? {
        return true;
      }
      newLine := newLine[x.value := Empty];
      grid := grid + [newLine];
      grid := grid[1..];
      return false;
    }

    method HandleMove(move: int)
      requires Valid()
      modifies this`current
      ensures Valid()
      ensures current == if old(current).None? then None else Some(MovedBy(old(current).value, move))
    {
      if current.None? {
        return;
      }
      var piece := current.value;
      if move == 1 {
        current := Some(piece.(x := piece.x - 1));
      } else if move == 0 {
        current := Some(piece.(x := piece.x + 1));
      } else if move == 3 {
        current := Some(piece.(y := piece.y + 1));
      } else if move == 2 {
        current := Some(piece.Rotated());
      } else if move == 5 {
        current := Some(piece.(y := piece.y - 1));
      }
    }

    /** The session's packet handler. */
    method HandlePacket(p: Packet) returns (raised: bool)
      requires Valid()
      modifies this
      ensures Valid() && raised == Applied(old(View()), p).None?
      ensures !raised ==> View() == Applied(old(View()), p).value
    {
      raised := false;
      match p {
        case MovePacket(_, move) => HandleMove(move);
        case SpawnPacket(_, kind, next, x, y) =>
          if 0 <= kind < 7 && 0 <= next <= 7 {
            current := Some(Piece(ShapeKey(kind), x, y, 0));
            nextKey := Some(ShapeKey(next));
          } else {
            raised := true;
          }
        case FixPacket(_, x, y) =>
          if current.Some? {
            raised := Fix(x, y);
          }
        case ClearLinePacket(_, line, _, _) => raised := ClearLines(line);
        case AddLinePacket(_, hole) => raised := AddLine(hole);
        case GameOverPacket(_) =>
        case GameEndPacket(_) =>
      }
    }

    /** The preview: step down until the next step leaves the grid or hits a block. */
    method MakeLandingTetromino() returns (landing: Option<Piece>)
      requires Valid()
      requires |grid| == BOARD_ROWS && forall y :: 0 <= y < BOARD_ROWS ==> |grid[y]| == BOARD_COLS
      ensures landing.None? <==> current.None?
      ensures landing.Some? ==>
                && landing.value == current.value.(y := landing.value.y)
                && landing.value.y >= current.value.y
                && (forall y :: current.value.y < y <= landing.value.y ==> IsFreeAt(grid, current.value, y))
                && !IsFreeAt(grid, current.value, landing.value.y + 1)
    {
      if current.None? {
        return None;
      }
      var l := current.value;
      while true
        invariant l.Known() && l == current.value.(y := l.y) && l.y >= current.value.y
        invariant forall y :: current.value.y < y <= l.y ==> IsFreeAt(grid, current.value, y)
        decreases BOARD_ROWS - l.y
      {
        var moved := l.(y := l.y + 1);
        var free := Fits(moved);
        if !free {
          return Some(l);
        }
        assert IsFreeAt(grid, current.value, moved.y) && moved.Blocks()[0].y < BOARD_ROWS && ClientShape(moved.key, moved.rotation)[0].y >= 0;
        l := moved;
      }
    }

    method Fits(p: Piece) returns (free: bool)
      requires p.Known()
      requires |grid| == BOARD_ROWS && forall y :: 0 <= y < BOARD_ROWS ==> |grid[y]| == BOARD_COLS
      ensures free == IsFree(grid, p)
    {
      var blocks := p.Blocks();
      for i := 0 to 4
        invariant forall j :: 0 <= j < i ==>
          0 <= blocks[j].x < BOARD_COLS && 0 <= blocks[j].y < BOARD_ROWS && grid[blocks[j].y][blocks[j].x].Empty?
      {
        var b := blocks[i];
        if b.x < 0 || b.x >= BOARD_COLS || b.y < 0 || b.y >= BOARD_ROWS {
          return false;
        }
        if grid[b.y][b.x] != Empty {
          return false;
        }
      }
      return true;
    }
  }
}
