/** What one tick does to one player's game, as functions on values. `Engine.Tetris` is the
    in-place engine and is proved to compute exactly these; every theorem about runs of
    ticks is stated over them. */
module TickSpec {
  import opened Tetromino
  import opened Board
  import opened Timing

  datatype MoveType = MoveRight | MoveLeft | MoveRotate | MoveDown | MoveUp

  /** The ordered list of what happened in a tick, from which packets are built. */
  datatype Task =
    | Move(move: MoveType)
    | Fix(x: int, y: int)
    | ClearLine(line: int)
    | AddLine(hole: int)
    | GameOver
    | GameEnd(winner: int)
    | Spawn

  datatype Result = Nothing | Moved | Fixed

  datatype State = State(
    board: Board,
    piece: Tetromino,
    timers: Timers,
    inputs: seq<int>,
    moves: seq<bool>,
    tasks: seq<Task>,
    pending: nat,
    cleared: nat)
  {
    predicate WellFormed() {
      piece.WellFormed() && |moves| == INPUT_TYPE_COUNT
    }
  }

  function Emitted(s: State, t: Task): State {
    s.(tasks := s.tasks + [t])
  }

  // ---------- Moving ----------

  /** The lowest position a valid piece reaches by falling straight down. */
  function Landing(b: Board, t: Tetromino): (l: Tetromino)
    requires t.WellFormed() && IsValid(b, t)
    ensures l.WellFormed() && IsValid(b, l)
    ensures l == t.(moved := l.moved) && l.moved.x == t.moved.x && l.moved.y >= t.moved.y
    decreases TOTAL_HEIGHT - t.moved.y
  {
    assert InBounds(t.Cells()[0]) && t.blocks[0].y >= 0;
    if IsValid(b, t.Shifted(0, 1)) then
      assert InBounds(t.Shifted(0, 1).Cells()[0]);
      Landing(b, t.Shifted(0, 1))
    else t
  }

  /** Where a hard drop leaves a piece; a piece that does not fit stays where it is. */
  function Dropped(b: Board, t: Tetromino): (l: Tetromino)
    requires t.WellFormed()
    ensures l.WellFormed()
  {
    if IsValid(b, t) then Landing(b, t) else t
  }

  function Stepped(s: State, candidate: Tetromino, m: Input, task: MoveType, now: int): (r: (State, Result))
    requires s.WellFormed() && candidate.WellFormed()
    ensures r.0.WellFormed()
  {
    if IsValid(s.board, candidate) then
      (Emitted(s.(piece := candidate, timers := s.timers.Recorded(m, now)), Move(task)), Moved)
    else (s, Nothing)
  }

  function MoveInput(s: State, m: Input, now: int): (r: (State, Result))
    requires s.WellFormed()
    ensures r.0.WellFormed() && r.0.moves == s.moves
  {
    if !s.timers.Allows(m, now) then (s, Nothing)
    else match m
      case RIGHT => Stepped(s, s.piece.Shifted(1, 0), m, MoveRight, now)
      case LEFT => Stepped(s, s.piece.Shifted(-1, 0), m, MoveLeft, now)
      case ROTATE => Stepped(s, s.piece.Rotated(), m, MoveRotate, now)
      case DOWN =>
        var r := Stepped(s, s.piece.Shifted(0, 1), m, MoveDown, now);
        if r.1.Moved? then (r.0.(timers := r.0.timers.DownRestarted(now)), Moved)
        else (Emitted(s, Fix(s.piece.moved.x, s.piece.moved.y)), Fixed)
      case DROP =>
        var t := Dropped(s.board, s.piece);
        (Emitted(s.(piece := t, timers := s.timers.Recorded(DROP, now)), Fix(t.moved.x, t.moved.y)), Fixed)
  }

  /** The move task an input leads to when it does not lock. */
  function TaskOf(m: Input): MoveType {
    match m
    case RIGHT => MoveRight
    case LEFT => MoveLeft
    case ROTATE => MoveRotate
    case DOWN => MoveDown
    case DROP => MoveDown
  }

  /** What a move task says about the piece. */
  function MovedPiece(t: Tetromino, m: MoveType): (t': Tetromino)
    requires t.WellFormed()
    ensures t'.WellFormed()
  {
    match m
    case MoveRight => t.Shifted(1, 0)
    case MoveLeft => t.Shifted(-1, 0)
    case MoveDown => t.Shifted(0, 1)
    case MoveUp => t.Shifted(0, -1)
    case MoveRotate => t.Rotated()
  }

  /** The three things one input can do: nothing, a step onto free cells announced by one
      task, or a lock of the piece announced by its final position. */
  lemma MoveEffect(s: State, m: Input, now: int)
    requires s.WellFormed()
    ensures var (r, result) := MoveInput(s, m, now);
            && r.board == s.board && r.cleared == s.cleared && r.pending == s.pending
            && (result.Nothing? ==> r == s)
            && (result.Moved? ==> r.tasks == s.tasks + [Move(TaskOf(m))] &&
                                  r.piece == MovedPiece(s.piece, TaskOf(m)) &&
                                  IsValid(s.board, r.piece) && AllInBounds(r.piece) &&
                                  r.timers.down >= s.timers.down && r.timers.drop == s.timers.drop)
            && (result.Fixed? ==> (m == DOWN || m == DROP) && s.timers.Allows(m, now) &&
                                  r.tasks == s.tasks + [Fix(r.piece.moved.x, r.piece.moved.y)] &&
                                  r.piece == s.piece.(moved := r.piece.moved) &&
                                  (AllInBounds(s.piece) ==> AllInBounds(r.piece)) &&
                                  (IsValid(s.board, s.piece) ==> IsValid(s.board, r.piece)))
  {
  }

  // ---------- After a lock ----------

  function ClearTasks(rows: seq<int>): (tasks: seq<Task>)
    ensures |tasks| == |rows|
    ensures forall i :: 0 <= i < |rows| ==> tasks[i] == ClearLine(rows[i])
  {
    seq(|rows|, (i: int) requires 0 <= i < |rows| => ClearLine(rows[i]))
  }

  function LinesCleared(s: State): State {
    var rows := FullRows(s.board, TOTAL_HEIGHT);
    s.(board := Cleared(s.board), tasks := s.tasks + ClearTasks(rows), cleared := s.cleared + |rows|)
  }

  function OverChecked(s: State): State {
    if HiddenEmpty(s.board) then s else Emitted(s, GameOver)
  }

  function Locked(s: State): State
    requires s.WellFormed()
  {
    s.(board := Filled(s.board, s.piece.Cells()))
  }

  function AfterFix(s: State, now: int): State
    requires s.WellFormed()
  {
    var timers := s.timers.Recorded(DOWN, now).DownRestarted(now).Recorded(DROP, now);
    OverChecked(LinesCleared(Locked(s).(timers := timers)))
  }

  // ---------- The player's part of a tick ----------

  function Handled(s: State, m: Input, now: int): (s': State)
    requires s.WellFormed()
    ensures s'.WellFormed() && s'.moves == s.moves
  {
    var (r, result) := MoveInput(s, m, now);
    if result.Fixed? then AfterFix(r, now) else r
  }

  /** Pressed inputs run from DROP down to RIGHT, each at most once. */
  function HandledFrom(s: State, i: int, now: int): (s': State)
    requires s.WellFormed() && -1 <= i < |s.moves|
    ensures s'.WellFormed() && s'.moves == s.moves
    decreases i + 1
  {
    if i < 0 then s
    else HandledFrom(if s.moves[i] then Handled(s, InputOf(i), now) else s, i - 1, now)
  }

  /** Inputs of the tick merged by kind; unknown codes are ignored. */
  function Merged(moves: seq<bool>, inputs: seq<int>): (merged: seq<bool>)
    ensures |merged| == |moves|
    ensures forall i :: 0 <= i < |moves| ==> (merged[i] <==> moves[i] || i in inputs)
  {
    seq(|moves|, (i: int) requires 0 <= i < |moves| => moves[i] || i in inputs)
  }

  function Prepared(s: State, now: int): State
    requires s.WellFormed()
  {
    var s1 := if now >= s.timers.nextGarbage
              then s.(timers := s.timers.GarbageRestarted(now), pending := s.pending + 1) else s;
    var s2 := if now >= s1.timers.nextDown
              then s1.(timers := s1.timers.DownRestarted(now), inputs := s1.inputs + [3]) else s1;
    s2.(moves := Merged(s2.moves, s2.inputs))
  }

  function Ticked(s: State, now: int): (s': State)
    requires s.WellFormed()
    ensures s'.WellFormed()
  {
    var prepared := Prepared(s, now);
    HandledFrom(prepared, |prepared.moves| - 1, now)
  }

  // ---------- Garbage ----------

  predicate AreHoles(holes: seq<int>) {
    forall i :: 0 <= i < |holes| ==> 0 <= holes[i] < BOARD_WIDTH
  }

  /** One garbage line, before the check for game over. */
  function LineAdded(s: State, hole: int): State
    requires 0 <= hole < BOARD_WIDTH
  {
    Emitted(s.(board := PushedUp(s.board, hole)), AddLine(hole))
  }

  /** The piece moves up one row when it no longer fits. */
  function Lifted(s: State): (s': State)
    requires s.WellFormed()
    ensures s'.WellFormed()
  {
    if IsValid(s.board, s.piece) then s
    else Emitted(s.(piece := s.piece.Shifted(0, -1)), Move(MoveUp))
  }

  function GarbageAdded(s: State, holes: seq<int>): (s': State)
    requires s.WellFormed() && AreHoles(holes)
    ensures s'.WellFormed()
    decreases |holes|
  {
    if holes == [] then s
    else
      var s1 := LineAdded(s, holes[0]);
      if HiddenEmpty(s1.board) then GarbageAdded(Lifted(s1), holes[1..]) else Emitted(s1, GameOver)
  }

  // ---------- The room's part of a tick ----------

  predicate HasFix(tasks: seq<Task>) {
    exists i :: 0 <= i < |tasks| && tasks[i].Fix?
  }

  predicate IsOver(tasks: seq<Task>) {
    GameOver in tasks
  }

  /** What one tick of a room feeds to one player. `kind` and `next` come from the room's
      piece list; in a multi-player room `ended` and `winner` are the room's verdict; `score`
      and `combo` are only reported to the client. */
  datatype TickInput = TickInput(
    now: int, inputs: seq<int>, attacks: nat, holes: seq<int>, kind: Kind, next: Kind,
    score: int, combo: int, single: bool, ended: bool, winner: int)

  /** The garbage line of the timer, if it is due. */
  function DueLines(s: State, now: int): nat {
    if now >= s.timers.nextGarbage then 1 else 0
  }

  predicate FitsInput(s: State, i: TickInput) {
    AreHoles(i.holes) && |i.holes| == s.pending + DueLines(s, i.now) + i.attacks
  }

  /** A lock is followed by a spawn. */
  function Spawned(s: State, kind: Kind): (s': State)
    requires s.WellFormed()
    ensures s'.WellFormed()
  {
    if HasFix(s.tasks) then Emitted(s.(piece := NewTetromino(kind, SPAWN_POSITION)), Spawn) else s
  }

  /** The attacks of the other players arrive, and all pending lines are pushed in. */
  function Attacked(ticked: State, i: TickInput): (s': State)
    requires ticked.WellFormed() && AreHoles(i.holes)
    ensures s'.WellFormed()
  {
    GarbageAdded(ticked.(pending := ticked.pending + i.attacks), i.holes)
  }

  /** Inputs and garbage of one tick. */
  function Pushed(s: State, i: TickInput): (s': State)
    requires s.WellFormed() && FitsInput(s, i)
    ensures s'.WellFormed()
  {
    Attacked(Ticked(s.(inputs := s.inputs + i.inputs), i.now), i)
  }

  /** The state a player is in when the tasks of the tick are complete, before packets are
      built. A single-player room checks for game over once more and then spawns; a
      multi-player room spawns unless the game has ended. */
  function Played(s: State, i: TickInput): (s': State)
    requires s.WellFormed() && FitsInput(s, i)
    ensures s'.WellFormed()
  {
    var pushed := Pushed(s, i);
    if i.single then
      if HiddenEmpty(pushed.board) then Spawned(pushed, i.kind) else OverChecked(pushed)
    else if i.ended then Emitted(pushed, GameEnd(i.winner))
    else Spawned(pushed, i.kind)
  }

  /** Nothing is left over from an earlier tick. */
  predicate IsAtRest(s: State) {
    && s.WellFormed()
    && s.inputs == [] && s.tasks == [] && s.pending == 0 && s.cleared == 0
    && (forall i :: 0 <= i < INPUT_TYPE_COUNT ==> !s.moves[i])
  }

  /** The tick's working data is dropped once packets have been built; board, piece and deadlines
      stay. */
  function Reset(s: State): (s': State)
    requires s.WellFormed()
    ensures IsAtRest(s') && s'.board == s.board && s'.piece == s.piece && s'.timers == s.timers
  {
    s.(moves := seq(INPUT_TYPE_COUNT, _ => false), inputs := [], tasks := [], pending := 0, cleared := 0)
  }

  function Started(kind: Kind, now: int): (s: State)
    ensures IsAtRest(s)
  {
    State(EmptyBoard(), NewTetromino(kind, SPAWN_POSITION), FreshTimers(now), [], seq(INPUT_TYPE_COUNT, _ => false), [], 0, 0)
  }

  // ---------- One player of a room, over many ticks ----------

  /** `playing` is the player's room state: PLAY until the first GAME_OVER task. */
  datatype PlayerGame = PlayerGame(state: State, playing: bool)

  /** A player who is out still ticks, but gets no garbage and no new piece. */
  function TickOf(g: PlayerGame, i: TickInput): (s: State)
    requires g.state.WellFormed() && FitsInput(g.state, i)
    ensures s.WellFormed()
  {
    if g.playing then Played(g.state, i) else Ticked(g.state.(inputs := g.state.inputs + i.inputs), i.now)
  }

  function PlayerTick(g: PlayerGame, i: TickInput): (g': PlayerGame)
    requires g.state.WellFormed() && FitsInput(g.state, i)
    ensures g'.state.WellFormed()
  {
    var s := TickOf(g, i);
    PlayerGame(Reset(s), g.playing && !IsOver(s.tasks))
  }

  /** Every tick of a run gets the garbage columns it needs. */
  predicate FitsRun(g: PlayerGame, run: seq<TickInput>)
    requires g.state.WellFormed()
    decreases |run|
  {
    run == [] || (FitsInput(g.state, run[0]) && FitsRun(PlayerTick(g, run[0]), run[1..]))
  }

  function AfterRun(g: PlayerGame, run: seq<TickInput>): (g': PlayerGame)
    requires g.state.WellFormed() && FitsRun(g, run)
    ensures g'.state.WellFormed()
    decreases |run|
  {
    if run == [] then g else AfterRun(PlayerTick(g, run[0]), run[1..])
  }

  /** All tasks of a run, in order. */
  function RunTasks(g: PlayerGame, run: seq<TickInput>): seq<Task>
    requires g.state.WellFormed() && FitsRun(g, run)
    decreases |run|
  {
    if run == [] then [] else TickOf(g, run[0]).tasks + RunTasks(PlayerTick(g, run[0]), run[1..])
  }

  /** The room's game is still on after every tick of the run. */
  predicate GoesOn(run: seq<TickInput>) {
    forall i :: 0 <= i < |run| ==> run[i].single || !run[i].ended
  }
}
