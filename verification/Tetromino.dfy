/** Piece shapes and piece positions, shared by the server engine and the client replica.
    The server and the client each carry a table of their own; both are written out here
    and proved equal, because the replica depends on that. */
module Tetromino {

  /** A board position or an offset. The server stores both as 8-bit signed numbers;
      `TickInvariant.CoordinatesFitInByte` shows the values never leave that range. */
  datatype Position = Position(x: int, y: int)

  datatype Kind = I | J | L | O | S | T | Z

  const KINDS: seq<Kind> := [I, J, L, O, S, T, Z]

  function KindIndex(k: Kind): (i: nat)
    ensures i < 7 && KINDS[i] == k
  {
    match k
    case I => 0
    case J => 1
    case L => 2
    case O => 3
    case S => 4
    case T => 5
    case Z => 6
  }

  /** Four different offsets inside a 4x4 box. */
  predicate IsShape(s: seq<Position>) {
    && |s| == 4
    && (forall i :: 0 <= i < 4 ==> 0 <= s[i].x <= 3 && 0 <= s[i].y <= 3)
    && (forall i, j :: 0 <= i < j < 4 ==> s[i] != s[j])
  }

  function Offsets(x0: nat, y0: nat, x1: nat, y1: nat, x2: nat, y2: nat, x3: nat, y3: nat): (s: seq<Position>)
    requires x0 <= 3 && y0 <= 3 && x1 <= 3 && y1 <= 3 && x2 <= 3 && y2 <= 3 && x3 <= 3 && y3 <= 3
    requires (x0, y0) != (x1, y1) && (x0, y0) != (x2, y2) && (x0, y0) != (x3, y3)
    requires (x1, y1) != (x2, y2) && (x1, y1) != (x3, y3) && (x2, y2) != (x3, y3)
    ensures IsShape(s)
  {
    [Position(x0, y0), Position(x1, y1), Position(x2, y2), Position(x3, y3)]
  }

  /** How many rotations a kind has in the server's shape table. */
  function Rotations(k: Kind): nat {
    match k
    case J | L | T => 4
    case I | S | Z => 2
    case O => 1
  }

  /** The server's shape table. */
  function ServerShape(k: Kind, r: nat): (shape: seq<Position>)
    requires r < Rotations(k)
    ensures IsShape(shape)
  {
    match k
    case I =>
      if r == 0 then Offsets(0, 1, 1, 1, 2, 1, 3, 1)
      else Offsets(2, 0, 2, 1, 2, 2, 2, 3)
    case J =>
      if r == 0 then Offsets(0, 0, 0, 1, 1, 1, 2, 1)
      else if r == 1 then Offsets(1, 0, 2, 0, 1, 1, 1, 2)
      else if r == 2 then Offsets(0, 1, 1, 1, 2, 1, 2, 2)
      else Offsets(1, 0, 1, 1, 0, 2, 1, 2)
    case L =>
      if r == 0 then Offsets(2, 0, 0, 1, 1, 1, 2, 1)
      else if r == 1 then Offsets(1, 0, 1, 1, 1, 2, 2, 2)
      else if r == 2 then Offsets(0, 1, 1, 1, 2, 1, 0, 2)
      else Offsets(0, 0, 1, 0, 1, 1, 1, 2)
    case O =>
      Offsets(1, 0, 2, 0, 1, 1, 2, 1)
    case S =>
      if r == 0 then Offsets(1, 1, 2, 1, 0, 2, 1, 2)
      else Offsets(1, 0, 1, 1, 2, 1, 2, 2)
    case T =>
      if r == 0 then Offsets(1, 0, 0, 1, 1, 1, 2, 1)
      else if r == 1 then Offsets(1, 0, 1, 1, 2, 1, 1, 2)
      else if r == 2 then Offsets(0, 1, 1, 1, 2, 1, 1, 2)
      else Offsets(1, 0, 0, 1, 1, 1, 1, 2)
    case Z =>
      if r == 0 then Offsets(0, 1, 1, 1, 1, 2, 2, 2)
      else Offsets(2, 0, 1, 1, 2, 1, 1, 2)
  }

  /** How many rotations the client's table (`SHAPES`) has for a letter. */
  function ClientRotations(key: char): nat {
    if key == 'J' || key == 'L' || key == 'T' then 4
    else if key == 'I' || key == 'S' || key == 'Z' then 2
    else if key == 'O' then 1
    else 0
  }

  /** The client's table. */
  function ClientShape(key: char, r: nat): (shape: seq<Position>)
    requires r < ClientRotations(key)
    ensures IsShape(shape)
  {
    if key == 'I' then
      if r == 0 then Offsets(0, 1, 1, 1, 2, 1, 3, 1)
      else Offsets(2, 0, 2, 1, 2, 2, 2, 3)
    else if key == 'J' then
      if r == 0 then Offsets(0, 0, 0, 1, 1, 1, 2, 1)
      else if r == 1 then Offsets(1, 0, 2, 0, 1, 1, 1, 2)
      else if r == 2 then Offsets(0, 1, 1, 1, 2, 1, 2, 2)
      else Offsets(1, 0, 1, 1, 0, 2, 1, 2)
    else if key == 'L' then
      if r == 0 then Offsets(2, 0, 0, 1, 1, 1, 2, 1)
      else if r == 1 then Offsets(1, 0, 1, 1, 1, 2, 2, 2)
      else if r == 2 then Offsets(0, 1, 1, 1, 2, 1, 0, 2)
      else Offsets(0, 0, 1, 0, 1, 1, 1, 2)
    else if key == 'S' then
      if r == 0 then Offsets(1, 1, 2, 1, 0, 2, 1, 2)
      else Offsets(1, 0, 1, 1, 2, 1, 2, 2)
    else if key == 'T' then
      if r == 0 then Offsets(1, 0, 0, 1, 1, 1, 2, 1)
      else if r == 1 then Offsets(1, 0, 1, 1, 2, 1, 1, 2)
      else if r == 2 then Offsets(0, 1, 1, 1, 2, 1, 1, 2)
      else Offsets(1, 0, 0, 1, 1, 1, 1, 2)
    else if key == 'Z' then
      if r == 0 then Offsets(0, 1, 1, 1, 1, 2, 2, 2)
      else Offsets(2, 0, 1, 1, 2, 1, 1, 2)
    else
      Offsets(1, 0, 2, 0, 1, 1, 2, 1)
  }

  /** The client's letter for a kind index (`SHAPES_INDEX`). */
  function ShapeKey(index: int): char {
    if index == 0 then 'I' else if index == 1 then 'J' else if index == 2 then 'L'
    else if index == 3 then 'O' else if index == 4 then 'S' else if index == 5 then 'T'
    else if index == 6 then 'Z' else 'G'
  }

  function KeyOf(k: Kind): char {
    ShapeKey(KindIndex(k))
  }

  /** Both tables hold the same offsets in the same order. */
  lemma SameShapeTables(k: Kind)
    ensures ClientRotations(KeyOf(k)) == Rotations(k)
    ensures forall r: nat :: r < Rotations(k) ==> ClientShape(KeyOf(k), r) == ServerShape(k, r)
  {
    match k
    case I =>
    case J =>
    case L =>
    case O =>
    case S =>
    case T =>
    case Z =>
  }

  /** A piece on the server: `blocks` caches the table entry of (kind, shapeIndex). */
  datatype Tetromino = Tetromino(kind: Kind, shapeIndex: nat, moved: Position, blocks: seq<Position>) {

    predicate WellFormed() {
      shapeIndex < Rotations(kind) && blocks == ServerShape(kind, shapeIndex)
    }

    /** The four absolute board positions. */
    function Cells(): (cells: seq<Position>)
      requires WellFormed()
      ensures |cells| == 4
      ensures forall i :: 0 <= i < 4 ==> cells[i] == Position(blocks[i].x + moved.x, blocks[i].y + moved.y)
      ensures forall i, j :: 0 <= i < j < 4 ==> cells[i] != cells[j]
    {
      seq(4, (i: int) requires 0 <= i < 4 => Position(blocks[i].x + moved.x, blocks[i].y + moved.y))
    }

    function Shifted(dx: int, dy: int): (t: Tetromino)
      ensures WellFormed() ==> t.WellFormed()
    {
      this.(moved := Position(moved.x + dx, moved.y + dy))
    }

    /** The next rotation, wrapping round at the end of the kind's list. */
    function Rotated(): (t: Tetromino)
      requires WellFormed()
      ensures t.WellFormed() && t.kind == kind && t.moved == moved
      ensures t.shapeIndex == (shapeIndex + 1) % Rotations(kind)
    {
      var next := if shapeIndex + 1 < Rotations(kind) then shapeIndex + 1 else 0;
      this.(shapeIndex := next, blocks := ServerShape(kind, next))
    }
  }

  /** `b` is `a` after a quarter turn, in any order of the cells and up to where they are put. */
  predicate IsQuarterTurn(a: seq<Position>, b: seq<Position>, d: Position)
    requires |a| == |b| == 4
  {
    forall i :: 0 <= i < 4 ==> Position(d.x - a[i].y, d.y + a[i].x) in [b[0], b[1], b[2], b[3]]
  }

  /** Where the box of the kind puts the turned cells. */
  function TurnOffset(k: Kind, r: nat): Position {
    match k
    case J | L | T | O => Position(2, 0)
    case I => if r == 0 then Position(3, 0) else Position(3, -1)
    case S | Z => if r == 0 then Position(3, 0) else Position(2, 0)
  }

  lemma TurnsOfTwo(k: Kind, r: nat)
    requires r < 2 && (k == I || k == S || k == Z)
    ensures IsQuarterTurn(ServerShape(k, r), ServerShape(k, 1 - r), TurnOffset(k, r))
  {
    match k {
      case I =>
      case S =>
      case Z =>
    }
  }

  lemma TurnsOfJ(r: nat)
    requires r < 4
    ensures IsQuarterTurn(ServerShape(J, r), ServerShape(J, if r + 1 < 4 then r + 1 else 0), TurnOffset(J, r))
  {
  }

  lemma TurnsOfL(r: nat)
    requires r < 4
    ensures IsQuarterTurn(ServerShape(L, r), ServerShape(L, if r + 1 < 4 then r + 1 else 0), TurnOffset(L, r))
  {
  }

  lemma TurnsOfT(r: nat)
    requires r < 4
    ensures IsQuarterTurn(ServerShape(T, r), ServerShape(T, if r + 1 < 4 then r + 1 else 0), TurnOffset(T, r))
  {
  }

  lemma TurnsOfFour(k: Kind, r: nat)
    requires r < 4 && (k == J || k == L || k == T)
    ensures IsQuarterTurn(ServerShape(k, r), ServerShape(k, if r + 1 < 4 then r + 1 else 0), TurnOffset(k, r))
  {
    hide IsQuarterTurn, ServerShape;
    match k {
      case J => TurnsOfJ(r);
      case L => TurnsOfL(r);
      case T => TurnsOfT(r);
    }
  }

  /** A rotation is a quarter turn, up to where the kind's box puts it; the square stays as it is. */
  lemma RotatedIsQuarterTurn(t: Tetromino)
    requires t.WellFormed()
    ensures t.kind == O ==> t.Rotated() == t
    ensures t.kind != O ==> IsQuarterTurn(t.blocks, t.Rotated().blocks, TurnOffset(t.kind, t.shapeIndex))
  {
    hide IsQuarterTurn, ServerShape;
    if t.kind == I || t.kind == S || t.kind == Z {
      TurnsOfTwo(t.kind, t.shapeIndex);
    } else if t.kind != O {
      TurnsOfFour(t.kind, t.shapeIndex);
    }
  }

  function NewTetromino(kind: Kind, spawn: Position): (t: Tetromino)
    ensures t.WellFormed()
  {
    Tetromino(kind, 0, spawn, ServerShape(kind, 0))
  }

  /** Where every piece appears. */
  const SPAWN_POSITION: Position := Position(3, 0)
}
