/** The in-game packets of the wire protocol: packed little-endian records behind a
    three-byte header of size and type. The server writes them, the client reads them. */
module Packets {
  import opened Tetromino
  import opened TickSpec

  newtype byte = b: int | 0 <= b < 256

  const PACKET_HEADER_SIZE: nat := 3

  const S2C_MOVE: int := 24
  const S2C_SPAWN: int := 25
  const S2C_GAME_OVER: int := 27
  const S2C_GAME_END: int := 29
  const S2C_CLEAR_LINE: int := 31
  const S2C_FIX: int := 33
  const S2C_ADD_LINE: int := 35

  datatype Packet =
    | MovePacket(id: int, move: int)
    | SpawnPacket(id: int, kind: int, next: int, x: int, y: int)
    | FixPacket(id: int, x: int, y: int)
    | ClearLinePacket(id: int, line: int, combo: int, score: int)
    | AddLinePacket(id: int, hole: int)
    | GameOverPacket(id: int)
    | GameEndPacket(winner: int)

  datatype Option<+T> = None | Some(value: T)

  /** The size of every send and receive buffer. */
  const BUF_SIZE: nat := 2048

  // ---------- Byte streams ----------

  /** The stream that a sequence of sends or receives carries. */
  function Flat(chunks: seq<seq<byte>>): seq<byte> {
    if chunks == [] then [] else chunks[0] + Flat(chunks[1..])
  }

  lemma FlatCons(chunk: seq<byte>, chunks: seq<seq<byte>>)
    ensures Flat([chunk] + chunks) == chunk + Flat(chunks) && Flat([]) == []
  {
    assert ([chunk] + chunks)[1..] == chunks;
  }

  lemma {:induction false} FlatSplit(a: seq<seq<byte>>, b: seq<seq<byte>>)
    ensures Flat(a + b) == Flat(a) + Flat(b)
  {
    if a == [] {
      assert a + b == b;
    } else {
      assert (a + b)[1..] == a[1..] + b;
      FlatSplit(a[1..], b);
    }
  }

  lemma FlatSnoc(chunks: seq<seq<byte>>, chunk: seq<byte>)
    ensures Flat(chunks + [chunk]) == Flat(chunks) + chunk
  {
    hide Flat;
    FlatSplit(chunks, [chunk]);
    FlatCons(chunk, []);
    assert [chunk] + [] == [chunk] && chunk + [] == chunk;
  }

  // ---------- Integer fields ----------

  predicate FitsChar(n: int) {
    -128 <= n < 128
  }

  predicate FitsInt(n: int) {
    -0x8000_0000 <= n < 0x8000_0000
  }

  /** Narrowing to a signed byte, as an assignment to `char` does. */
  function ToChar(n: int): byte {
    (n % 256) as byte
  }

  function FromChar(b: byte): (n: int)
    ensures FitsChar(n)
  {
    if b < 128 then b as int else b as int - 256
  }

  function ToInt(n: int): (bytes: seq<byte>)
    ensures |bytes| == 4
  {
    [(n % 256) as byte, (n / 256 % 256) as byte, (n / 65536 % 256) as byte, (n / 16777216 % 256) as byte]
  }

  function FromInt(bytes: seq<byte>): (n: int)
    requires |bytes| == 4
    ensures FitsInt(n)
  {
    var u := Unsigned(bytes);
    if u < 0x8000_0000 then u else u - 0x1_0000_0000
  }

  function WrapChar(n: int): (m: int)
    ensures FitsChar(m) && m % 256 == n % 256 && (FitsChar(n) ==> m == n)
  {
    FromChar(ToChar(n))
  }

  function WrapInt(n: int): (m: int)
    ensures FitsInt(m) && m % 0x1_0000_0000 == n % 0x1_0000_0000 && (FitsInt(n) ==> m == n)
  {
    IntRoundTrip(n);
    FromInt(ToInt(n))
  }

  /** The four bytes put together, low byte first. */
  function Unsigned(bytes: seq<byte>): (u: int)
    requires |bytes| == 4
    ensures 0 <= u < 0x1_0000_0000
  {
    bytes[0] as int + 256 * bytes[1] as int + 65536 * bytes[2] as int + 16777216 * bytes[3] as int
  }

  lemma DivideTwice(n: int)
    ensures n / 256 / 256 == n / 65536 && n / 65536 / 256 == n / 16777216
  {
  }

  lemma Digits(n: int, a: int, b: int, c: int)
    requires a == n / 256 && b == a / 256 && c == b / 256
    ensures n == n % 256 + 256 * (a % 256) + 65536 * (b % 256) + 16777216 * (c % 256) + 0x1_0000_0000 * (c / 256)
  {
    assert n == 256 * a + n % 256;
    assert a == 256 * b + a % 256;
    assert b == 256 * c + b % 256;
  }

  lemma Remainder(n: int, u: int, q: int)
    requires n == u + 0x1_0000_0000 * q && 0 <= u < 0x1_0000_0000
    ensures u == n % 0x1_0000_0000
  {
  }

  /** Integers are sent low byte first. */
  lemma LittleEndian(n: int)
    ensures Unsigned(ToInt(n)) == n % 0x1_0000_0000
  {
    DivideTwice(n);
    Digits(n, n / 256, n / 65536, n / 16777216);
    Remainder(n, Unsigned(ToInt(n)), n / 16777216 / 256);
  }

  lemma IntRoundTrip(n: int)
    ensures FromInt(ToInt(n)) % 0x1_0000_0000 == n % 0x1_0000_0000
    ensures FitsInt(n) ==> FromInt(ToInt(n)) == n
  {
    LittleEndian(n);
    hide ToInt;
  }

  // ---------- Encoding ----------

  function Header(size: nat, kind: int): (h: seq<byte>)
    requires size < 65536 && 0 <= kind < 256
    ensures |h| == PACKET_HEADER_SIZE
  {
    [(size % 256) as byte, (size / 256) as byte, kind as byte]
  }

  /** The packed size of a packet. */
  function PacketSize(p: Packet): (n: nat)
    ensures PACKET_HEADER_SIZE <= n <= 17
  {
    match p
    case MovePacket(_, _) => 8
    case SpawnPacket(_, _, _, _, _) => 11
    case FixPacket(_, _, _) => 9
    case ClearLinePacket(_, _, _, _) => 13
    case AddLinePacket(_, _) => 8
    case GameOverPacket(_) => 7
    case GameEndPacket(_) => 7
  }

  function PacketType(p: Packet): (t: int)
    ensures 0 <= t < 256
  {
    match p
    case MovePacket(_, _) => S2C_MOVE
    case SpawnPacket(_, _, _, _, _) => S2C_SPAWN
    case FixPacket(_, _, _) => S2C_FIX
    case ClearLinePacket(_, _, _, _) => S2C_CLEAR_LINE
    case AddLinePacket(_, _) => S2C_ADD_LINE
    case GameOverPacket(_) => S2C_GAME_OVER
    case GameEndPacket(_) => S2C_GAME_END
  }

  function Body(p: Packet): (bytes: seq<byte>)
    ensures |bytes| == PacketSize(p) - PACKET_HEADER_SIZE
  {
    match p
    case MovePacket(id, move) => ToInt(id) + [ToChar(move)]
    case SpawnPacket(id, kind, next, x, y) => ToInt(id) + [ToChar(kind), ToChar(next), ToChar(x), ToChar(y)]
    case FixPacket(id, x, y) => ToInt(id) + [ToChar(x), ToChar(y)]
    case ClearLinePacket(id, line, combo, score) => ToInt(id) + [ToChar(line), ToChar(combo)] + ToInt(score)
    case AddLinePacket(id, hole) => ToInt(id) + [ToChar(hole)]
    case GameOverPacket(id) => ToInt(id)
    case GameEndPacket(winner) => ToInt(winner)
  }

  function Encoded(p: Packet): (bytes: seq<byte>)
    ensures |bytes| == PacketSize(p)
  {
    Header(PacketSize(p), PacketType(p)) + Body(p)
  }

  function EncodedAll(packets: seq<Packet>): (bytes: seq<byte>) {
    if packets == [] then [] else EncodedAll(packets[..|packets| - 1]) + Encoded(packets[|packets| - 1])
  }

  /** The packet after every field has been narrowed to its wire width and widened again. */
  function Wrapped(p: Packet): Packet {
    match p
    case MovePacket(id, move) => MovePacket(WrapInt(id), WrapChar(move))
    case SpawnPacket(id, kind, next, x, y) =>
      SpawnPacket(WrapInt(id), WrapChar(kind), WrapChar(next), WrapChar(x), WrapChar(y))
    case FixPacket(id, x, y) => FixPacket(WrapInt(id), WrapChar(x), WrapChar(y))
    case ClearLinePacket(id, line, combo, score) =>
      ClearLinePacket(WrapInt(id), WrapChar(line), WrapChar(combo), WrapInt(score))
    case AddLinePacket(id, hole) => AddLinePacket(WrapInt(id), WrapChar(hole))
    case GameOverPacket(id) => GameOverPacket(WrapInt(id))
    case GameEndPacket(winner) => GameEndPacket(WrapInt(winner))
  }

  // ---------- Decoding ----------

  /** The client's unpacking of one complete frame. `None` is an exception: the registry does
      not know the type, or the frame is not exactly as long as its format. Types outside the
      in-game protocol are not part of this model and count as unknown. */
  function Decoded(frame: seq<byte>): Option<Packet>
    requires |frame| >= PACKET_HEADER_SIZE
  {
    var t := frame[2] as int;
    if t == S2C_MOVE && |frame| == 8 then
      Some(MovePacket(FromInt(frame[3..7]), FromChar(frame[7])))
    else if t == S2C_SPAWN && |frame| == 11 then
      Some(SpawnPacket(FromInt(frame[3..7]), FromChar(frame[7]), FromChar(frame[8]), FromChar(frame[9]), FromChar(frame[10])))
    else if t == S2C_FIX && |frame| == 9 then
      Some(FixPacket(FromInt(frame[3..7]), FromChar(frame[7]), FromChar(frame[8])))
    else if t == S2C_CLEAR_LINE && |frame| == 13 then
      Some(ClearLinePacket(FromInt(frame[3..7]), FromChar(frame[7]), FromChar(frame[8]), FromInt(frame[9..13])))
    else if t == S2C_ADD_LINE && |frame| == 8 then
      Some(AddLinePacket(FromInt(frame[3..7]), FromChar(frame[7])))
    else if t == S2C_GAME_OVER && |frame| == 7 then
      Some(GameOverPacket(FromInt(frame[3..7])))
    else if t == S2C_GAME_END && |frame| == 7 then
      Some(GameEndPacket(FromInt(frame[3..7])))
    else None
  }

  lemma FrameParts(p: Packet)
    ensures var frame := Encoded(p);
            frame[2] as int == PacketType(p) &&
            (forall k :: 3 <= k < |frame| ==> frame[k] == Body(p)[k - 3])
  {
  }

  /** What the client reads is what the server wrote, field by field, up to the field widths. */
  lemma RoundTrip(p: Packet)
    ensures Decoded(Encoded(p)) == Some(Wrapped(p))
  {
    hide ToInt, FromInt, ToChar, FromChar, FitsInt, FitsChar, Encoded;
    var frame := Encoded(p);
    FrameParts(p);
    match p
    case MovePacket(id, _) => assert frame[3..7] == ToInt(id);
    case SpawnPacket(id, _, _, _, _) => assert frame[3..7] == ToInt(id);
    case FixPacket(id, _, _) => assert frame[3..7] == ToInt(id);
    case ClearLinePacket(id, _, _, score) => assert frame[3..7] == ToInt(id) && frame[9..13] == ToInt(score);
    case AddLinePacket(id, _) => assert frame[3..7] == ToInt(id);
    case GameOverPacket(id) => assert frame[3..7] == ToInt(id);
    case GameEndPacket(winner) => assert frame[3..7] == ToInt(winner);
  }

  /** The records byte by byte: the size, low byte first, the type, the player's id, and the fields
      in order. */
  lemma WireLayout(p: Packet)
    ensures var frame := Encoded(p);
            match p
            case MovePacket(id, move) => frame == [8, 0, 24] + ToInt(id) + [ToChar(move)]
            case SpawnPacket(id, kind, next, x, y) =>
              frame == [11, 0, 25] + ToInt(id) + [ToChar(kind), ToChar(next), ToChar(x), ToChar(y)]
            case FixPacket(id, x, y) => frame == [9, 0, 33] + ToInt(id) + [ToChar(x), ToChar(y)]
            case ClearLinePacket(id, line, combo, score) =>
              frame == [13, 0, 31] + ToInt(id) + [ToChar(line), ToChar(combo)] + ToInt(score)
            case AddLinePacket(id, hole) => frame == [8, 0, 35] + ToInt(id) + [ToChar(hole)]
            case GameOverPacket(id) => frame == [7, 0, 27] + ToInt(id)
            case GameEndPacket(winner) => frame == [7, 0, 29] + ToInt(winner)
  {
    hide ToInt, ToChar;
    match p
    case MovePacket(_, _) =>
    case SpawnPacket(_, _, _, _, _) =>
    case FixPacket(_, _, _) =>
    case ClearLinePacket(_, _, _, _) =>
    case AddLinePacket(_, _) =>
    case GameOverPacket(_) =>
    case GameEndPacket(_) =>
  }

  /** Two of them. */
  lemma WireExamples()
    ensures Encoded(FixPacket(258, -1, 24)) == [9, 0, 33, 2, 1, 0, 0, 255, 24]
    ensures Encoded(ClearLinePacket(-2, 24, 1, 66051)) == [13, 0, 31, 254, 255, 255, 255, 24, 1, 3, 2, 1, 0]
  {
    WireLayout(FixPacket(258, -1, 24));
    WireLayout(ClearLinePacket(-2, 24, 1, 66051));
  }

  // ---------- From tasks to packets ----------

  function MoveCode(m: MoveType): int {
    match m
    case MoveRight => 0
    case MoveLeft => 1
    case MoveRotate => 2
    case MoveDown => 3
    case MoveUp => 5
  }

  /** The packet the room appends for a task of the player `id`. */
  function TaskPacket(t: Task, id: int, i: TickInput): Packet {
    match t
    case Move(move) => MovePacket(id, MoveCode(move))
    case Fix(x, y) => FixPacket(id, x, y)
    case ClearLine(line) => ClearLinePacket(id, line, i.combo, i.score)
    case Spawn => SpawnPacket(id, KindIndex(i.kind), KindIndex(i.next), SPAWN_POSITION.x, SPAWN_POSITION.y)
    case AddLine(hole) => AddLinePacket(id, hole)
    case GameOver => GameOverPacket(id)
    case GameEnd(winner) => GameEndPacket(winner)
  }

  function TaskPackets(tasks: seq<Task>, id: int, i: TickInput): (packets: seq<Packet>)
    ensures |packets| == |tasks|
    ensures forall k :: 0 <= k < |tasks| ==> packets[k] == TaskPacket(tasks[k], id, i)
  {
    seq(|tasks|, (k: int) requires 0 <= k < |tasks| => TaskPacket(tasks[k], id, i))
  }

  /** The bytes every task is sent as: a move with its code, a lock with the piece's place, a cleared
      row with combo and score, a new piece with its kind, the next kind and where it appears. */
  lemma TaskBytes(t: Task, id: int, i: TickInput)
    ensures var frame := Encoded(TaskPacket(t, id, i));
            match t
            case Move(move) =>
              frame == [8, 0, 24] + ToInt(id) + [match move case MoveRight => 0 case MoveLeft => 1 case MoveRotate => 2 case MoveDown => 3 case MoveUp => 5]
            case Fix(x, y) => frame == [9, 0, 33] + ToInt(id) + [ToChar(x), ToChar(y)]
            case ClearLine(line) => frame == [13, 0, 31] + ToInt(id) + [ToChar(line), ToChar(i.combo)] + ToInt(i.score)
            case AddLine(hole) => frame == [8, 0, 35] + ToInt(id) + [ToChar(hole)]
            case GameOver => frame == [7, 0, 27] + ToInt(id)
            case GameEnd(winner) => frame == [7, 0, 29] + ToInt(winner)
            case Spawn => frame == [11, 0, 25] + ToInt(id) + [ToChar(KindIndex(i.kind)), ToChar(KindIndex(i.next)), 3, 0]
  {
    hide ToInt, Encoded;
    WireLayout(TaskPacket(t, id, i));
  }
}
