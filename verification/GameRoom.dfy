/** A multi-player room's game in place: every player's engine and send buffer, from the start of
    the game through its ticks to the bytes that go out, and what a client shows that hears
    them. */
module GameRoom {
  import opened Board
  import opened Tetromino
  import opened TickSpec
  import opened TickInvariant
  import opened Packets
  import opened PacketBound
  import opened RoomPackets
  import opened Framing
  import opened Engine
  import opened EndToEnd

  // ---------- The players' boards ----------

  function Objects(b: Tetris): set<object> {
    {b, b.board, b.pendingMoves, b.timers}
  }

  function AllObjects(boards: seq<Tetris>): set<object> {
    set j, o | 0 <= j < |boards| && o in Objects(boards[j]) :: o
  }

  predicate Apart(boards: seq<Tetris>) {
    forall j, k :: 0 <= j < k < |boards| ==> Objects(boards[j]) !! Objects(boards[k])
  }

  ghost predicate AreBoards(boards: seq<Tetris>)
    reads boards
  {
    Apart(boards) && forall j :: 0 <= j < |boards| ==> boards[j].Valid()
  }

  ghost function Views(boards: seq<Tetris>): (states: seq<State>)
    requires AreBoards(boards)
    reads boards, AllObjects(boards)
    ensures |states| == |boards| && forall j :: 0 <= j < |boards| ==> states[j] == boards[j].View() && states[j].WellFormed()
  {
    seq(|boards|, (j: int) requires 0 <= j < |boards| && AreBoards(boards) reads boards, AllObjects(boards) =>
      assert Objects(boards[j]) <= AllObjects(boards);
      assert boards[j].board in Objects(boards[j]) && boards[j].pendingMoves in Objects(boards[j]) && boards[j].timers in Objects(boards[j]);
      boards[j].View())
  }

  lemma OneView(boards: seq<Tetris>, before: seq<State>, j: nat)
    requires AreBoards(boards) && j < |boards| == |before|
    requires forall k :: 0 <= k < |boards| && k != j ==> boards[k].View() == before[k]
    ensures Views(boards) == before[j := boards[j].View()]
  {
  }

  /** More lines to come. */
  function Owing(s: State, lines: nat): (s': State)
    requires s.WellFormed()
    ensures s'.WellFormed()
  {
    s.(pending := s.pending + lines)
  }

  /** What a player's own inputs make of a tick. */
  function OwnTick(s: State, i: TickInput): (s': State)
    requires s.WellFormed()
    ensures s'.WellFormed()
  {
    Ticked(s.(inputs := s.inputs + i.inputs), i.now)
  }

  // ---------- One board among the others ----------

  method TickAt(boards: seq<Tetris>, j: nat, i: TickInput)
    requires AreBoards(boards) && j < |boards| && AllInBounds(boards[j].current)
    modifies Objects(boards[j])
    ensures AreBoards(boards)
    ensures Views(boards) == old(Views(boards))[j := OwnTick(old(Views(boards))[j], i)]
  {
    hide Ticked;
    ghost var before := Views(boards);
    boards[j].AddInputs(i.inputs);
    boards[j].ProcessTick(i.now);
    OneView(boards, before, j);
  }

  method GarbageAt(boards: seq<Tetris>, j: nat, holes: seq<int>)
    requires AreBoards(boards) && j < |boards| && AreHoles(holes) && |holes| == Views(boards)[j].pending
    modifies Objects(boards[j])
    ensures AreBoards(boards)
    ensures Views(boards) == old(Views(boards))[j := GarbageAdded(old(Views(boards))[j], holes)]
  {
    hide GarbageAdded;
    ghost var before := Views(boards);
    boards[j].AddGarbageLines(holes);
    OneView(boards, before, j);
  }

  method PendingAt(boards: seq<Tetris>, j: nat, count: nat)
    requires AreBoards(boards) && j < |boards|
    modifies Objects(boards[j])
    ensures AreBoards(boards)
    ensures Views(boards) == old(Views(boards))[j := Owing(old(Views(boards))[j], count)]
  {
    ghost var before := Views(boards);
    boards[j].AddPendingGarbageLines(count);
    OneView(boards, before, j);
  }

  method SpawnAt(boards: seq<Tetris>, j: nat, kind: Kind)
    requires AreBoards(boards) && j < |boards|
    modifies Objects(boards[j])
    ensures AreBoards(boards)
    ensures Views(boards) == old(Views(boards))[j := Spawned(old(Views(boards))[j], kind)]
  {
    hide Spawned;
    ghost var before := Views(boards);
    boards[j].AddSpawn(kind);
    OneView(boards, before, j);
  }

  method ResetAt(boards: seq<Tetris>, j: nat)
    requires AreBoards(boards) && j < |boards|
    modifies Objects(boards[j])
    ensures AreBoards(boards)
    ensures Views(boards) == old(Views(boards))[j := Reset(old(Views(boards))[j])]
  {
    ghost var before := Views(boards);
    boards[j].ResetTickData();
    OneView(boards, before, j);
  }

  method StartAt(boards: seq<Tetris>, j: nat, kind: Kind, now: int)
    requires AreBoards(boards) && j < |boards| && IsAtRest(boards[j].View())
    modifies Objects(boards[j])
    ensures AreBoards(boards)
    ensures Views(boards) == old(Views(boards))[j := Started(kind, now)]
  {
    ghost var before := Views(boards);
    boards[j].StartGame(kind, now);
    OneView(boards, before, j);
  }

  // ---------- The phases of a tick ----------

  /** Every player with a session ticks, in the game or out of it. */
  method TickPlayers(boards: seq<Tetris>, present: seq<bool>, inputs: seq<TickInput>)
    requires AreBoards(boards) && |present| == |inputs| == |boards|
    requires forall j :: 0 <= j < |boards| && present[j] ==> AllInBounds(boards[j].current)
    modifies AllObjects(boards)
    ensures AreBoards(boards)
    ensures forall j :: 0 <= j < |boards| ==>
              Views(boards)[j] == (var s := old(Views(boards))[j]; if present[j] then OwnTick(s, inputs[j]) else s)
  {
    hide OwnTick, AreBoards, Views, AllObjects, Objects;
    ghost var before := Views(boards);
    for j := 0 to |boards|
      invariant AreBoards(boards)
      invariant forall k :: j <= k < |boards| ==> Views(boards)[k] == before[k]
      invariant forall k :: 0 <= k < j ==>
                  Views(boards)[k] == if present[k] then OwnTick(before[k], inputs[k]) else before[k]
    {
      if present[j] {
        ObjectsWithin(boards, j);
        PieceOf(boards, j);
        TickAt(boards, j, inputs[j]);
      }
    }
  }

  lemma ObjectsWithin(boards: seq<Tetris>, j: nat)
    requires j < |boards|
    ensures Objects(boards[j]) <= AllObjects(boards)
  {
  }

  lemma PieceOf(boards: seq<Tetris>, j: nat)
    requires AreBoards(boards) && j < |boards|
    ensures boards[j].current == Views(boards)[j].piece && boards[j].pendingGarbageLines == Views(boards)[j].pending
    ensures boards[j].sendTasks == Views(boards)[j].tasks && boards[j].clearedLines == Views(boards)[j].cleared
  {
  }

  function ClearedOf(states: seq<State>): (cleared: seq<nat>)
    ensures |cleared| == |states| && forall j :: 0 <= j < |states| ==> cleared[j] == states[j].cleared
  {
    seq(|states|, (j: int) requires 0 <= j < |states| => states[j].cleared)
  }

  method ClearedLines(boards: seq<Tetris>) returns (cleared: seq<nat>)
    requires AreBoards(boards)
    ensures cleared == ClearedOf(Views(boards))
  {
    cleared := [];
    for j := 0 to |boards|
      invariant cleared == ClearedOf(Views(boards))[..j]
    {
      cleared := cleared + [boards[j].clearedLines];
    }
  }

  method AttacksOf(cleared: seq<nat>, inPlay: seq<bool>) returns (attacks: seq<nat>)
    requires |cleared| == |inPlay|
    ensures |attacks| == |cleared| && forall j :: 0 <= j < |cleared| ==> attacks[j] == Attacks(cleared, inPlay, j, |cleared|)
  {
    var lines := new nat[|cleared|](_ => 0);
    DistributeGarbageLines(cleared, inPlay, lines);
    attacks := lines[..];
  }

  method AddPending(boards: seq<Tetris>, attacks: seq<nat>)
    requires AreBoards(boards) && |attacks| == |boards|
    modifies AllObjects(boards)
    ensures AreBoards(boards)
    ensures forall j :: 0 <= j < |boards| ==>
              Views(boards)[j] == Owing(old(Views(boards))[j], attacks[j])
  {
    hide AreBoards, Views, AllObjects, Objects, Owing;
    ghost var before := Views(boards);
    for j := 0 to |boards|
      invariant AreBoards(boards)
      invariant forall k :: j <= k < |boards| ==> Views(boards)[k] == before[k]
      invariant forall k :: 0 <= k < j ==> Views(boards)[k] == Owing(before[k], attacks[k])
    {
      ObjectsWithin(boards, j);
      PendingAt(boards, j, attacks[j]);
    }
  }

  /** The lines that everybody has cleared are sent to the others. */
  method DistributeLines(boards: seq<Tetris>, inPlay: seq<bool>) returns (attacks: seq<nat>)
    requires AreBoards(boards) && |inPlay| == |boards|
    modifies AllObjects(boards)
    ensures AreBoards(boards) && |attacks| == |boards|
    ensures forall j :: 0 <= j < |boards| ==> attacks[j] == Attacks(ClearedOf(old(Views(boards))), inPlay, j, |boards|)
    ensures forall j :: 0 <= j < |boards| ==> Views(boards)[j] == Owing(old(Views(boards))[j], attacks[j])
  {
    hide AreBoards, Apart, Attacks, Owing, ClearedOf, Views;
    attacks := LinesFor(boards, inPlay);
    AddPending(boards, attacks);
  }

  method LinesFor(boards: seq<Tetris>, inPlay: seq<bool>) returns (attacks: seq<nat>)
    requires AreBoards(boards) && |inPlay| == |boards|
    ensures AreBoards(boards) && Views(boards) == old(Views(boards)) && |attacks| == |boards|
    ensures forall j :: 0 <= j < |boards| ==> attacks[j] == Attacks(ClearedOf(Views(boards)), inPlay, j, |boards|)
  {
    hide Attacks, ClearedOf, Views;
    var cleared := ClearedLines(boards);
    ghost var before := Views(boards);
    attacks := AttacksOf(cleared, inPlay);
    assert Views(boards) == before;
  }

  /** Everybody in the game gets the pending lines; `inputs` holds the random columns. */
  method AddGarbageLines(boards: seq<Tetris>, inPlay: seq<bool>, inputs: seq<TickInput>)
    requires AreBoards(boards) && |inPlay| == |inputs| == |boards|
    requires forall j :: 0 <= j < |boards| && inPlay[j] ==> AreHoles(inputs[j].holes) && |inputs[j].holes| == Views(boards)[j].pending
    modifies AllObjects(boards)
    ensures AreBoards(boards)
    ensures forall j :: 0 <= j < |boards| ==>
              Views(boards)[j] == (var s := old(Views(boards))[j]; if inPlay[j] then GarbageAdded(s, inputs[j].holes) else s)
  {
    hide GarbageAdded, AreBoards, Views, AllObjects, Objects, AreHoles;
    ghost var before := Views(boards);
    for j := 0 to |boards|
      invariant AreBoards(boards)
      invariant forall k :: j <= k < |boards| ==> Views(boards)[k] == before[k]
      invariant forall k :: 0 <= k < j ==> Views(boards)[k] == if inPlay[k] then GarbageAdded(before[k], inputs[k].holes) else before[k]
    {
      if inPlay[j] {
        ObjectsWithin(boards, j);
        GarbageAt(boards, j, inputs[j].holes);
      }
    }
  }

  method AddSpawnTasks(boards: seq<Tetris>, inPlay: seq<bool>, inputs: seq<TickInput>)
    requires AreBoards(boards) && |inPlay| == |inputs| == |boards|
    modifies AllObjects(boards)
    ensures AreBoards(boards)
    ensures forall j :: 0 <= j < |boards| ==>
              Views(boards)[j] == (var s := old(Views(boards))[j]; if inPlay[j] then Spawned(s, inputs[j].kind) else s)
  {
    hide Spawned, AreBoards, Views, AllObjects, Objects;
    ghost var before := Views(boards);
    for j := 0 to |boards|
      invariant AreBoards(boards)
      invariant forall k :: j <= k < |boards| ==> Views(boards)[k] == before[k]
      invariant forall k :: 0 <= k < j ==> Views(boards)[k] == if inPlay[k] then Spawned(before[k], inputs[k].kind) else before[k]
    {
      if inPlay[j] {
        ObjectsWithin(boards, j);
        SpawnAt(boards, j, inputs[j].kind);
      }
    }
  }

  method ResetTickState(boards: seq<Tetris>, present: seq<bool>)
    requires AreBoards(boards) && |present| == |boards|
    modifies AllObjects(boards)
    ensures AreBoards(boards)
    ensures forall j :: 0 <= j < |boards| ==>
              Views(boards)[j] == (var s := old(Views(boards))[j]; if present[j] then Reset(s) else s)
  {
    hide Reset, AreBoards, Views, AllObjects, Objects;
    ghost var before := Views(boards);
    for j := 0 to |boards|
      invariant AreBoards(boards)
      invariant forall k :: j <= k < |boards| ==> Views(boards)[k] == before[k]
      invariant forall k :: 0 <= k < j ==> Views(boards)[k] == if present[k] then Reset(before[k]) else before[k]
    {
      if present[j] {
        ObjectsWithin(boards, j);
        ResetAt(boards, j);
      }
    }
  }

  // ---------- A tick on values ----------

  ghost predicate AllSafe(games: seq<PlayerGame>) {
    forall j :: 0 <= j < |games| ==> Safe(games[j])
  }

  predicate AreGames(games: seq<PlayerGame>) {
    forall j :: 0 <= j < |games| ==> games[j].state.WellFormed()
  }

  ghost function OwnTicks(games: seq<PlayerGame>, inputs: seq<TickInput>): (states: seq<State>)
    requires |games| == |inputs| && AreGames(games)
    ensures |states| == |games| && forall j :: 0 <= j < |games| ==> states[j] == OwnTick(games[j].state, inputs[j])
  {
    seq(|games|, (j: int) requires 0 <= j < |games| == |inputs| && AreGames(games) => OwnTick(games[j].state, inputs[j]))
  }

  function PlayingOf(games: seq<PlayerGame>): (playing: seq<bool>)
    ensures |playing| == |games| && forall j :: 0 <= j < |games| ==> playing[j] == games[j].playing
  {
    seq(|games|, (j: int) requires 0 <= j < |games| => games[j].playing)
  }

  /** The attacks of a tick are the lines the others have cleared in it. */
  ghost predicate AttacksAreHandedRound(games: seq<PlayerGame>, inputs: seq<TickInput>) {
    && |games| == |inputs| <= MAX_ROOM_PLAYERS && AreGames(games)
    && forall j :: 0 <= j < |games| ==>
         !inputs[j].single && inputs[j].attacks == Attacks(ClearedOf(OwnTicks(games, inputs)), PlayingOf(games), j, |games|)
  }

  // ---------- A tick in place ----------

  /** What a tick makes of one player who is there: everything up to the packets. */
  lemma TickInPhases(g: PlayerGame, i: TickInput)
    requires g.state.WellFormed() && FitsInput(g.state, i) && !i.single && !i.ended
    ensures var told := Owing(OwnTick(g.state, i), i.attacks);
            && |i.holes| == told.pending && AreHoles(i.holes)
            && (g.playing ==> Spawned(GarbageAdded(told, i.holes), i.kind) == TickOf(g, i))
            && (!g.playing ==> OwnTick(g.state, i) == TickOf(g, i))
  {
    TickedPending(g.state.(inputs := g.state.inputs + i.inputs), i.now);
    hide Ticked, GarbageAdded, Spawned;
  }

  /** Nobody sends lines to a player who is out. */
  lemma OutIsNotAttacked(games: seq<PlayerGame>, inputs: seq<TickInput>, j: nat)
    requires AttacksAreHandedRound(games, inputs) && j < |games| && !games[j].playing
    ensures inputs[j].attacks == 0 && Owing(OwnTick(games[j].state, inputs[j]), 0) == OwnTick(games[j].state, inputs[j])
  {
    AttacksBound(ClearedOf(OwnTicks(games, inputs)), PlayingOf(games), j, |games|);
    hide Ticked;
  }

  /** Only what players in the game have cleared counts. */
  lemma {:induction false} AttacksSame(a: seq<nat>, b: seq<nat>, inPlay: seq<bool>, j: nat, n: nat)
    requires |a| == |b| == |inPlay| && j < |a| && n <= |a| && forall k :: 0 <= k < |a| && inPlay[k] ==> a[k] == b[k]
    ensures Attacks(a, inPlay, j, n) == Attacks(b, inPlay, j, n)
  {
    if n > 0 {
      AttacksSame(a, b, inPlay, j, n - 1);
    }
  }

  /** Which slots tick: those with a session; and those of them that are in the game. */
  ghost predicate Flags(present: seq<bool>, inPlay: seq<bool>, games: seq<PlayerGame>) {
    |present| == |inPlay| == |games| && inPlay == PlayingOf(games) && forall j :: 0 <= j < |games| && inPlay[j] ==> present[j]
  }

  /** The views of the players who are there. */
  ghost predicate ShowGames(views: seq<State>, present: seq<bool>, games: seq<PlayerGame>) {
    |views| == |present| == |games| && forall j :: 0 <= j < |games| && present[j] ==> views[j] == games[j].state
  }

  ghost predicate ShowOwnTicks(views: seq<State>, present: seq<bool>, games: seq<PlayerGame>, inputs: seq<TickInput>) {
    && |views| == |present| == |games| == |inputs| && AreGames(games)
    && forall j :: 0 <= j < |games| && present[j] ==> views[j] == OwnTick(games[j].state, inputs[j])
  }

  ghost predicate ShowTicks(views: seq<State>, present: seq<bool>, games: seq<PlayerGame>, ids: seq<int>, inputs: seq<TickInput>) {
    && FitsRoom(games, ids, inputs) && |views| == |present| == |games|
    && forall j :: 0 <= j < |games| && present[j] ==> views[j] == TickOf(games[j], inputs[j])
  }

  /** Whose lines go where, from what the boards have cleared. */
  lemma AttacksFit(views: seq<State>, present: seq<bool>, games: seq<PlayerGame>, inputs: seq<TickInput>, attacks: seq<nat>)
    requires ShowOwnTicks(views, present, games, inputs) && Flags(present, PlayingOf(games), games)
    requires AttacksAreHandedRound(games, inputs) && |attacks| == |games|
    requires forall j :: 0 <= j < |games| ==> attacks[j] == Attacks(ClearedOf(views), PlayingOf(games), j, |games|)
    ensures forall j :: 0 <= j < |games| ==> attacks[j] == inputs[j].attacks
  {
    hide Attacks;
    forall j | 0 <= j < |games|
      ensures attacks[j] == inputs[j].attacks
    {
      AttacksSame(ClearedOf(views), ClearedOf(OwnTicks(games, inputs)), PlayingOf(games), j, |games|);
    }
  }

  /** The players' own inputs. */
  method InputPhase(boards: seq<Tetris>, present: seq<bool>, inputs: seq<TickInput>, ghost games: seq<PlayerGame>)
    requires AreBoards(boards) && AreGames(games) && AllSafe(games) && |inputs| == |boards| && ShowGames(Views(boards), present, games)
    modifies AllObjects(boards)
    ensures AreBoards(boards) && ShowOwnTicks(Views(boards), present, games, inputs)
  {
    hide AreBoards, Apart, Views, OwnTick;
    forall j | 0 <= j < |boards| && present[j]
      ensures AllInBounds(boards[j].current)
    {
      PieceOf(boards, j);
      assert Safe(games[j]);
    }
    hide Safe;
    TickPlayers(boards, present, inputs);
  }

  ghost predicate ShowTold(views: seq<State>, present: seq<bool>, games: seq<PlayerGame>, inputs: seq<TickInput>) {
    && |views| == |present| == |games| == |inputs| && AreGames(games)
    && forall j :: 0 <= j < |games| && present[j] ==> views[j] == Owing(OwnTick(games[j].state, inputs[j]), inputs[j].attacks)
  }

  /** The lines everybody has cleared become the others' pending lines. */
  method AttackPhase(boards: seq<Tetris>, present: seq<bool>, inPlay: seq<bool>, ghost games: seq<PlayerGame>, ghost inputs: seq<TickInput>)
    requires AreBoards(boards) && ShowOwnTicks(Views(boards), present, games, inputs) && |boards| == |games|
    requires Flags(present, inPlay, games) && AttacksAreHandedRound(games, inputs)
    modifies AllObjects(boards)
    ensures AreBoards(boards) && ShowTold(Views(boards), present, games, inputs)
  {
    hide AreBoards, Apart, Views, OwnTick, Owing, Attacks, AttacksAreHandedRound;
    ghost var ticked := Views(boards);
    var attacks := DistributeLines(boards, inPlay);
    AttacksFit(ticked, present, games, inputs, attacks);
  }

  /** The lines arrive, and whoever has locked a piece gets the next one. */
  method GarbagePhase(boards: seq<Tetris>, present: seq<bool>, inPlay: seq<bool>, inputs: seq<TickInput>,
                      ghost games: seq<PlayerGame>, ghost ids: seq<int>)
    requires AreBoards(boards) && ShowTold(Views(boards), present, games, inputs) && |boards| == |games|
    requires Flags(present, inPlay, games) && AttacksAreHandedRound(games, inputs) && FitsRoom(games, ids, inputs)
    modifies AllObjects(boards)
    ensures AreBoards(boards) && ShowTicks(Views(boards), present, games, ids, inputs)
  {
    hide AreBoards, Apart, Views, OwnTick, Owing, Spawned, GarbageAdded, TickOf, FitsInput, AttacksAreHandedRound, AreHoles;
    forall j | 0 <= j < |boards|
      ensures inPlay[j] ==> AreHoles(inputs[j].holes) && |inputs[j].holes| == Views(boards)[j].pending
      ensures present[j] ==> (if inPlay[j] then Spawned(GarbageAdded(Views(boards)[j], inputs[j].holes), inputs[j].kind) else Views(boards)[j])
                             == TickOf(games[j], inputs[j])
    {
      MultiInput(games, ids, inputs, j);
      TickInPhases(games[j], inputs[j]);
      if !inPlay[j] {
        OutIsNotAttacked(games, inputs, j);
      }
    }
    AddGarbageLines(boards, inPlay, inputs);
    AddSpawnTasks(boards, inPlay, inputs);
  }

  lemma MultiInput(games: seq<PlayerGame>, ids: seq<int>, inputs: seq<TickInput>, j: nat)
    requires AttacksAreHandedRound(games, inputs) && FitsRoom(games, ids, inputs) && j < |games|
    ensures !inputs[j].single && !inputs[j].ended && games[j].state.WellFormed() && FitsInput(games[j].state, inputs[j])
  {
  }

  // ---------- Packets ----------

  method CollectPackets(boards: seq<Tetris>, inPlay: seq<bool>, ids: seq<int>, inputs: seq<TickInput>) returns (packets: seq<seq<Packet>>)
    requires AreBoards(boards) && |inPlay| == |ids| == |inputs| == |boards|
    ensures |packets| == |boards|
    ensures forall j :: 0 <= j < |boards| ==> packets[j] == if inPlay[j] then TaskPackets(Views(boards)[j].tasks, ids[j], inputs[j]) else []
  {
    packets := [];
    for j := 0 to |boards|
      invariant |packets| == j
      invariant forall k :: 0 <= k < j ==> packets[k] == if inPlay[k] then TaskPackets(Views(boards)[k].tasks, ids[k], inputs[k]) else []
    {
      packets := packets + [if inPlay[j] then TaskPackets(boards[j].sendTasks, ids[j], inputs[j]) else []];
    }
  }

  ghost predicate ArePackets(packets: seq<seq<Packet>>, games: seq<PlayerGame>, ids: seq<int>, inputs: seq<TickInput>)
    requires FitsRoom(games, ids, inputs)
  {
    |packets| == |games| && forall j :: 0 <= j < |games| ==> packets[j] == SlotPackets(games[j], ids[j], inputs[j])
  }

  lemma CollectedAre(views: seq<State>, present: seq<bool>, inPlay: seq<bool>, games: seq<PlayerGame>, ids: seq<int>,
                     inputs: seq<TickInput>, packets: seq<seq<Packet>>)
    requires ShowTicks(views, present, games, ids, inputs) && Flags(present, inPlay, games) && |packets| == |games|
    requires |views| == |inPlay| == |ids| == |inputs| == |games|
    requires forall j :: 0 <= j < |games| ==> packets[j] == if inPlay[j] then TaskPackets(views[j].tasks, ids[j], inputs[j]) else []
    ensures FitsRoom(games, ids, inputs) && ArePackets(packets, games, ids, inputs)
  {
    hide TickOf, TaskPackets, FitsInput;
  }

  /** The bytes of a tick never outgrow a send buffer. */
  lemma PacketsFit(packets: seq<seq<Packet>>, games: seq<PlayerGame>, ids: seq<int>, inputs: seq<TickInput>)
    requires FitsRoom(games, ids, inputs) && ArePackets(packets, games, ids, inputs) && AttacksAreHandedRound(games, inputs) && AllSafe(games)
    ensures Within(packets, 375)
  {
    hide EncodedAll, Within, Attacks, Ticked, Playable, FitsInput;
    forall j | 0 <= j < |packets|
      ensures |EncodedAll(packets[j])| <= 375
    {
      if games[j].playing {
        SlotFits(games, ids, inputs, j);
      } else {
        NoPackets();
      }
    }
    WithinAll(packets);
  }

  lemma WithinAll(packets: seq<seq<Packet>>)
    requires forall j :: 0 <= j < |packets| ==> |EncodedAll(packets[j])| <= 375
    ensures Within(packets, 375)
  {
  }

  ghost function StatesOf(games: seq<PlayerGame>): (states: seq<State>)
    ensures |states| == |games| && forall j :: 0 <= j < |games| ==> states[j] == games[j].state
  {
    seq(|games|, (j: int) requires 0 <= j < |games| => games[j].state)
  }

  lemma SlotFits(games: seq<PlayerGame>, ids: seq<int>, inputs: seq<TickInput>, j: nat)
    requires FitsRoom(games, ids, inputs) && AttacksAreHandedRound(games, inputs) && AllSafe(games) && j < |games| && games[j].playing
    ensures |EncodedAll(SlotPackets(games[j], ids[j], inputs[j]))| <= 375
  {
    hide EncodedAll, Attacks, Playable, FitsInput, Played;
    assert Safe(games[j]);
    RoomTickFits(StatesOf(games), PlayingOf(games), inputs, ClearedOf(OwnTicks(games, inputs)), j, ids[j]);
  }

  /** What the players offer in a tick is the tick's packets, one after the other. */
  lemma OffersAreTheTick(offers: seq<seq<byte>>, packets: seq<seq<Packet>>, games: seq<PlayerGame>, ids: seq<int>, inputs: seq<TickInput>)
    requires FitsRoom(games, ids, inputs) && ArePackets(packets, games, ids, inputs) && |offers| == |games|
    requires forall j :: 0 <= j < |games| ==> offers[j] == if games[j].playing then EncodedAll(packets[j]) else []
    ensures Flat(offers) == EncodedAll(TickPackets(games, ids, inputs, |games|))
  {
    hide EncodedAll, Flat, TaskPackets, FitsInput;
    NoPackets();
    TickStream(games, ids, inputs, offers, |games|);
    assert offers[..|games|] == offers;
  }

  /** A game-over packet is sent exactly to whom the tick puts out of the game. */
  lemma OverIsSent(g: PlayerGame, id: int, i: TickInput)
    requires g.state.WellFormed() && FitsInput(g.state, i)
    ensures PlayerTick(g, i).playing <==> g.playing && !EndsGame(SlotPackets(g, id, i))
  {
    hide TickOf, FitsInput;
    if g.playing {
      var (tasks, packets) := (TickOf(g, i).tasks, SlotPackets(g, id, i));
      if IsOver(tasks) {
        var k :| 0 <= k < |tasks| && tasks[k] == GameOver;
        assert packets[k].GameOverPacket?;
      }
      if EndsGame(packets) {
        var k :| 0 <= k < |packets| && packets[k].GameOverPacket?;
        assert tasks[k] == GameOver;
      }
    }
  }

  // ---------- The room ----------

  /** The games of a room agree with its players and boards. A player without a session counts
      as out, and nothing is claimed of their board. */
  ghost predicate Seats(players: seq<Player>, boards: seq<Tetris>, games: seq<PlayerGame>)
    requires AreBoards(boards)
    reads players, boards, AllObjects(boards)
  {
    && |boards| == |players| && PlayersIn(players, games)
    && (forall j :: 0 <= j < |players| ==> players[j].connected ==> Views(boards)[j] == games[j].state)
  }

  ghost predicate NothingHeld(players: seq<Player>)
    reads players
  {
    forall j :: 0 <= j < |players| ==> players[j].contents == []
  }

  /** Who is still here. */
  predicate AreHere(players: seq<Player>, here: seq<bool>)
    reads players`connected
  {
    |here| == |players| && forall j :: 0 <= j < |players| ==> here[j] == players[j].connected
  }

  method ReadFlags(players: seq<Player>) returns (present: seq<bool>, inPlay: seq<bool>)
    ensures AreHere(players, present) && |inPlay| == |players| && forall j :: 0 <= j < |players| ==> inPlay[j] == players[j].InGame()
  {
    present, inPlay := [], [];
    for j := 0 to |players|
      invariant |present| == |inPlay| == j
      invariant forall k :: 0 <= k < j ==> present[k] == players[k].connected && inPlay[k] == players[k].InGame()
    {
      present := present + [players[j].connected];
      inPlay := inPlay + [players[j].InGame()];
    }
  }

  /** The boards' part of a tick, up to the packets. */
  method RunPhases(boards: seq<Tetris>, present: seq<bool>, inPlay: seq<bool>, inputs: seq<TickInput>,
                   ghost games: seq<PlayerGame>, ghost ids: seq<int>)
    requires AreBoards(boards) && |games| == |boards| && FitsRoom(games, ids, inputs) && Flags(present, inPlay, games)
    requires AttacksAreHandedRound(games, inputs) && AllSafe(games) && ShowGames(Views(boards), present, games)
    modifies AllObjects(boards)
    ensures AreBoards(boards) && ShowTicks(Views(boards), present, games, ids, inputs)
  {
    assert AreGames(games);
    hide AreBoards, Apart, Views, ShowTicks, ShowOwnTicks, ShowTold, ShowGames, Flags, FitsRoom, AttacksAreHandedRound, AllSafe;
    InputPhase(boards, present, inputs, games);
    AttackPhase(boards, present, inPlay, games, inputs);
    GarbagePhase(boards, present, inPlay, inputs, games, ids);
  }

  ghost predicate PlayersIn(players: seq<Player>, games: seq<PlayerGame>)
    reads players
  {
    |players| == |games| && forall j :: 0 <= j < |players| ==> (players[j].InGame() <==> games[j].playing)
  }

  lemma PlayersMatch(players: seq<Player>, games: seq<PlayerGame>, ids: seq<int>, inputs: seq<TickInput>, packets: seq<seq<Packet>>)
    requires FitsRoom(games, ids, inputs) && ArePackets(packets, games, ids, inputs) && |players| == |games|
    requires forall j :: 0 <= j < |players| ==>
               (players[j].InGame() <==> games[j].playing && !EndsGame(packets[j]))
    ensures PlayersIn(players, RoomAfter(games, ids, inputs))
  {
    hide PlayerTick, FitsInput, EndsGame, SlotPackets;
    forall j | 0 <= j < |players|
      ensures players[j].InGame() <==> PlayerTick(games[j], inputs[j]).playing
    {
      OverIsSent(games[j], ids[j], inputs[j]);
    }
  }

  /** The tick's packets go out; whoever is sent a game over is out. */
  method SendPackets(players: seq<Player>, packets: seq<seq<Packet>>, ghost games: seq<PlayerGame>, ghost ids: seq<int>, ghost inputs: seq<TickInput>)
    returns (sent: seq<seq<seq<byte>>>)
    requires IsRoom(players) && NothingHeld(players) && PlayersIn(players, games) && |players| <= MAX_ROOM_PLAYERS
    requires FitsRoom(games, ids, inputs) && ArePackets(packets, games, ids, inputs) && Within(packets, 375)
    modifies players`size, players`contents, players`playing, set p | p in players :: p.buffer
    ensures IsRoom(players) && NothingHeld(players) && PlayersIn(players, RoomAfter(games, ids, inputs))
    ensures |sent| == |players|
    ensures forall j :: 0 <= j < |players| && players[j].connected ==> Flat(sent[j]) == EncodedAll(TickPackets(games, ids, inputs, |games|))
  {
    hide IsRoom, FitsInput, EncodedAll, PlayerTick, Within, EndsGame, TickPackets, SlotPackets;
    ghost var offers := TickOffers(players, packets);
    OffersAreTheTick(offers, packets, games, ids, inputs);
    sent := SendTick(players, packets);
    OneChunk(Flat(offers));
    PlayersMatch(players, games, ids, inputs, packets);
  }

  lemma OneChunk(stream: seq<byte>)
    ensures Flat(if stream == [] then [] else [stream]) == stream
  {
    FlatCons(stream, []);
    assert [stream] + [] == [stream] && stream + [] == stream;
  }

  lemma ResetGames(before: seq<State>, views: seq<State>, present: seq<bool>, games: seq<PlayerGame>, ids: seq<int>, inputs: seq<TickInput>)
    requires ShowTicks(before, present, games, ids, inputs) && |views| == |before|
    requires forall j :: 0 <= j < |views| && present[j] ==> before[j].WellFormed() && views[j] == Reset(before[j])
    ensures ShowGames(views, present, RoomAfter(games, ids, inputs))
  {
    hide TickOf, FitsInput, Reset;
  }

  /** The boards' part of a tick, and its packets. */
  method RunBoards(boards: seq<Tetris>, present: seq<bool>, inPlay: seq<bool>, ids: seq<int>, inputs: seq<TickInput>, ghost games: seq<PlayerGame>)
    returns (packets: seq<seq<Packet>>)
    requires AreBoards(boards) && |games| == |boards| && FitsRoom(games, ids, inputs) && Flags(present, inPlay, games)
    requires AttacksAreHandedRound(games, inputs) && AllSafe(games) && ShowGames(Views(boards), present, games)
    modifies AllObjects(boards)
    ensures AreBoards(boards) && ShowTicks(Views(boards), present, games, ids, inputs)
    ensures ArePackets(packets, games, ids, inputs) && Within(packets, 375)
  {
    assert |inPlay| == |ids| == |inputs| == |boards|;
    hide AreBoards, Apart, Views, AttacksAreHandedRound, AllSafe, ShowGames, ShowTicks, ArePackets, Within, FitsRoom, Flags, TaskPackets;
    RunPhases(boards, present, inPlay, inputs, games, ids);
    packets := CollectPackets(boards, inPlay, ids, inputs);
    CollectedAre(Views(boards), present, inPlay, games, ids, inputs, packets);
    PacketsFit(packets, games, ids, inputs);
  }

  method ResetBoards(boards: seq<Tetris>, present: seq<bool>, ghost games: seq<PlayerGame>, ghost ids: seq<int>, ghost inputs: seq<TickInput>)
    requires AreBoards(boards) && ShowTicks(Views(boards), present, games, ids, inputs) && |boards| == |present|
    modifies AllObjects(boards)
    ensures AreBoards(boards) && FitsRoom(games, ids, inputs) && ShowGames(Views(boards), present, RoomAfter(games, ids, inputs))
  {
    hide AreBoards, Apart, Views, Reset;
    ghost var ticked := Views(boards);
    ResetTickState(boards, present);
    ResetGames(ticked, Views(boards), present, games, ids, inputs);
  }

  lemma FlagsShow(players: seq<Player>, present: seq<bool>, inPlay: seq<bool>, games: seq<PlayerGame>)
    requires AreHere(players, present) && |inPlay| == |players| && PlayersIn(players, games)
    requires forall j :: 0 <= j < |players| ==> inPlay[j] == players[j].InGame()
    ensures Flags(present, inPlay, games)
  {
  }

  lemma SeatsShow(players: seq<Player>, boards: seq<Tetris>, present: seq<bool>, games: seq<PlayerGame>)
    requires AreBoards(boards) && AreHere(players, present) && |players| == |boards|
    ensures Seats(players, boards, games) <==> PlayersIn(players, games) && ShowGames(Views(boards), present, games)
  {
    hide AreBoards, Views;
  }

  /** A player's buffer is not part of a board. */
  lemma DifferentThings(players: seq<Player>, boards: seq<Tetris>)
    ensures forall p :: p in players ==> p !in AllObjects(boards) && p.buffer !in AllObjects(boards)
  {
  }

  /** The end of a tick: its packets go out, and its working data go. */
  method SendAndReset(players: seq<Player>, boards: seq<Tetris>, present: seq<bool>, packets: seq<seq<Packet>>,
                      ghost games: seq<PlayerGame>, ghost ids: seq<int>, ghost inputs: seq<TickInput>)
    returns (sent: seq<seq<seq<byte>>>)
    requires IsRoom(players) && NothingHeld(players) && PlayersIn(players, games) && |players| == |boards| <= MAX_ROOM_PLAYERS
    requires AreHere(players, present)
    requires AreBoards(boards) && ShowTicks(Views(boards), present, games, ids, inputs)
    requires FitsRoom(games, ids, inputs) && ArePackets(packets, games, ids, inputs) && Within(packets, 375)
    modifies players`size, players`contents, players`playing, (set p | p in players :: p.buffer), AllObjects(boards)
    ensures IsRoom(players) && NothingHeld(players) && PlayersIn(players, RoomAfter(games, ids, inputs)) && AreHere(players, present)
    ensures AreBoards(boards) && ShowGames(Views(boards), present, RoomAfter(games, ids, inputs))
    ensures |sent| == |players|
    ensures |present| == |players|
    ensures forall j :: 0 <= j < |players| && present[j] ==> Flat(sent[j]) == EncodedAll(TickPackets(games, ids, inputs, |games|))
  {
    hide AreBoards, Apart, Views, IsRoom, NothingHeld, EncodedAll, Flat, ArePackets, Within, TickPackets, ShowTicks, ShowGames, PlayersIn,
         FitsRoom, RoomAfter, AllObjects;
    DifferentThings(players, boards);
    ghost var ticked := Views(boards);
    sent := SendPackets(players, packets, games, ids, inputs);
    assert AreHere(players, present);
    hide AreHere;
    assert AreBoards(boards) && Views(boards) == ticked;
    ResetBoards(boards, present, games, ids, inputs);
    assert IsRoom(players) && NothingHeld(players) && PlayersIn(players, RoomAfter(games, ids, inputs)) && AreHere(players, present);
  }

  lemma SentToPresent(players: seq<Player>, present: seq<bool>)
    requires AreHere(players, present)
    ensures |present| == |players| && forall j :: 0 <= j < |players| ==> present[j] == players[j].connected
  {
  }

  /** One tick of a multi-player room: every connected player is sent the tick's packets, and the
      boards and players are where the tick takes their games. */
  method ProcessGameTick(players: seq<Player>, boards: seq<Tetris>, ids: seq<int>, inputs: seq<TickInput>, ghost games: seq<PlayerGame>)
    returns (sent: seq<seq<seq<byte>>>)
    requires IsRoom(players) && NothingHeld(players) && AreBoards(boards) && Seats(players, boards, games)
    requires FitsRoom(games, ids, inputs) && AttacksAreHandedRound(games, inputs) && AllSafe(games)
    modifies players`size, players`contents, players`playing, (set p | p in players :: p.buffer), AllObjects(boards)
    ensures IsRoom(players) && NothingHeld(players) && AreBoards(boards) && Seats(players, boards, RoomAfter(games, ids, inputs))
    ensures |sent| == |players|
    ensures forall j :: 0 <= j < |players| && players[j].connected ==> Flat(sent[j]) == EncodedAll(TickPackets(games, ids, inputs, |games|))
  {
    assert |boards| == |players| == |games| <= MAX_ROOM_PLAYERS && PlayersIn(players, games);
    hide AreBoards, Apart, Views, IsRoom, NothingHeld, AttacksAreHandedRound, EncodedAll, Flat, ArePackets, AllSafe, Within,
         TickPackets, ShowTicks, ShowGames, Seats, PlayersIn, FitsRoom, RoomAfter, AllObjects, Flags;
    var present, inPlay := ReadFlags(players);
    FlagsShow(players, present, inPlay, games);
    SeatsShow(players, boards, present, games);
    DifferentThings(players, boards);
    assert |present| == |inPlay| == |boards|;
    hide AreHere;
    var packets := RunBoards(boards, present, inPlay, ids, inputs, games);
    assert IsRoom(players) && NothingHeld(players) && PlayersIn(players, games) && AreHere(players, present);
    sent := SendAndReset(players, boards, present, packets, games, ids, inputs);
    SentToPresent(players, present);
    SeatsShow(players, boards, present, RoomAfter(games, ids, inputs));
  }

  // ---------- The start ----------

  /** Everybody who is there gets an empty board and the first piece. */
  method StartBoards(boards: seq<Tetris>, seated: seq<bool>, kind: Kind, now: int)
    requires AreBoards(boards) && |seated| == |boards|
    requires forall j :: 0 <= j < |boards| && seated[j] ==> IsAtRest(Views(boards)[j])
    modifies AllObjects(boards)
    ensures AreBoards(boards)
    ensures forall j :: 0 <= j < |boards| && seated[j] ==> Views(boards)[j] == Started(kind, now)
  {
    hide AreBoards, Views, AllObjects, Objects, Started, IsAtRest;
    ghost var before := Views(boards);
    for j := 0 to |boards|
      invariant AreBoards(boards)
      invariant forall k :: j <= k < |boards| ==> Views(boards)[k] == before[k]
      invariant forall k :: 0 <= k < j && seated[k] ==> Views(boards)[k] == Started(kind, now)
    {
      if seated[j] {
        ObjectsWithin(boards, j);
        StartAt(boards, j, kind, now);
      }
    }
  }

  method SetPlaying(players: seq<Player>)
    requires IsRoom(players)
    modifies players`playing
    ensures IsRoom(players) && forall j :: 0 <= j < |players| ==> (players[j].InGame() <==> players[j].connected)
  {
    for j := 0 to |players|
      invariant IsRoom(players)
      invariant forall k :: 0 <= k < j ==> (players[k].InGame() <==> players[k].connected)
    {
      if players[j].connected {
        players[j].playing := true;
      }
    }
  }

  /** Everybody who is there is told of everybody's first piece. */
  method SendFirstPieces(players: seq<Player>, ids: seq<int>, seated: seq<bool>, kind: Kind, next: Kind) returns (sent: seq<seq<seq<byte>>>)
    requires |players| == |ids| == |seated|
    ensures |sent| == |players|
    ensures forall j :: 0 <= j < |players| && players[j].connected ==>
              Flat(sent[j]) == EncodedAll(StartPackets(ids, seated, kind, next, |ids|))
  {
    hide SentToAll, EncodedAll, Encoded, Flat, StartPacket;
    sent := seq(|players|, _ => []);
    ghost var done: seq<seq<byte>> := [];
    NothingSent(players, sent);
    NoPackets();
    FlatCons([], []);
    for i := 0 to |players|
      invariant SentToAll(players, sent, done)
      invariant Flat(done) == EncodedAll(StartPackets(ids, seated, kind, next, i))
    {
      if seated[i] {
        var packet := StartPacket(ids[i], kind, next);
        sent := SendToAll(players, sent, Encoded(packet), done);
        FlatSnoc(done, Encoded(packet));
        done := done + [Encoded(packet)];
        EncodedSnoc(StartPackets(ids, seated, kind, next, i), packet);
      } else {
        assert StartPackets(ids, seated, kind, next, i) + [] == StartPackets(ids, seated, kind, next, i);
      }
    }
    AllAreSent(players, sent, done);
  }

  lemma EncodedSnoc(packets: seq<Packet>, p: Packet)
    ensures EncodedAll(packets + [p]) == EncodedAll(packets) + Encoded(p)
  {
    assert (packets + [p])[..|packets|] == packets;
  }

  lemma AllAreSent(players: seq<Player>, sent: seq<seq<seq<byte>>>, done: seq<seq<byte>>)
    requires SentToAll(players, sent, done)
    ensures |sent| == |players| && forall j :: 0 <= j < |players| && players[j].connected ==> sent[j] == done
  {
  }

  /** A multi-player room's game starts for everybody who is there. */
  method StartGame(players: seq<Player>, boards: seq<Tetris>, ids: seq<int>, seated: seq<bool>, kind: Kind, next: Kind, now: int)
    returns (sent: seq<seq<seq<byte>>>)
    requires IsRoom(players) && NothingHeld(players) && AreBoards(boards) && |players| == |boards| == |ids| == |seated|
    requires forall j :: 0 <= j < |players| ==> seated[j] == players[j].connected
    requires forall j :: 0 <= j < |boards| && players[j].connected ==> IsAtRest(Views(boards)[j])
    modifies players`playing, AllObjects(boards)
    ensures IsRoom(players) && NothingHeld(players) && AreBoards(boards) && Seats(players, boards, StartedRoom(seated, kind, now))
    ensures |sent| == |players|
    ensures forall j :: 0 <= j < |players| && players[j].connected ==>
              Flat(sent[j]) == EncodedAll(StartPackets(ids, seated, kind, next, |ids|))
  {
    hide AreBoards, Views, IsRoom, AllObjects, Started, Flat, EncodedAll;
    DifferentThings(players, boards);
    SetPlaying(players);
    assert AreBoards(boards) && Views(boards) == old(Views(boards));
    StartBoards(boards, seated, kind, now);
    assert IsRoom(players);
    sent := SendFirstPieces(players, ids, seated, kind, next);
  }

  // ---------- A whole game ----------

  /** In every tick of a run the lines cleared are handed round. */
  ghost predicate FairRun(games: seq<PlayerGame>, ids: seq<int>, run: seq<RoomTick>)
    requires FitsRoomRun(games, ids, run)
    decreases |run|
  {
    run == [] ||
    (AttacksAreHandedRound(Without(games, run[0].gone), run[0].inputs) && FairRun(AfterTick(games, ids, run[0]), ids, run[1..]))
  }

  lemma TickIsSafe(games: seq<PlayerGame>, ids: seq<int>, inputs: seq<TickInput>)
    requires FitsRoom(games, ids, inputs) && AttacksAreHandedRound(games, inputs) && AllSafe(games)
    ensures AllSafe(RoomAfter(games, ids, inputs))
  {
    hide Safe, PlayerTick, FitsInput, Attacks;
    forall j | 0 <= j < |games|
      ensures Safe(RoomAfter(games, ids, inputs)[j])
    {
      GoesOnFor(games, ids, inputs, j);
      assert Safe(games[j]);
      StaysInBounds(games[j], inputs[j]);
    }
  }

  lemma GoesOnFor(games: seq<PlayerGame>, ids: seq<int>, inputs: seq<TickInput>, j: nat)
    requires FitsRoom(games, ids, inputs) && AttacksAreHandedRound(games, inputs) && j < |games|
    ensures games[j].state.WellFormed() && FitsInput(games[j].state, inputs[j]) && GameContinues(games[j], inputs[j])
  {
    hide FitsInput, Attacks;
  }

  /** What those who are still here have been sent, and what the rest of the run will send, is the
      whole run's. */
  ghost predicate SentSoFar(here: seq<bool>, sent: seq<seq<seq<byte>>>, rest: seq<Packet>, all: seq<Packet>) {
    |sent| == |here| && forall j :: 0 <= j < |here| && here[j] ==> Flat(sent[j]) + EncodedAll(rest) == EncodedAll(all)
  }

  lemma SendMore(here: seq<bool>, sent: seq<seq<seq<byte>>>, here': seq<bool>, more: seq<seq<seq<byte>>>, sent': seq<seq<seq<byte>>>,
                 tick: seq<Packet>, rest: seq<Packet>, all: seq<Packet>)
    requires SentSoFar(here, sent, tick + rest, all) && |more| == |sent'| == |here'| == |here|
    requires forall j :: 0 <= j < |here| ==> sent'[j] == sent[j] + more[j]
    requires forall j :: 0 <= j < |here| && here'[j] ==> here[j] && Flat(more[j]) == EncodedAll(tick)
    ensures SentSoFar(here', sent', rest, all)
  {
    hide Flat, EncodedAll;
    EncodedAllAppend(tick, rest);
    forall j | 0 <= j < |here| && here'[j]
      ensures Flat(sent'[j]) + EncodedAll(rest) == EncodedAll(all)
    {
      FlatSplit(sent[j], more[j]);
      assert Flat(sent[j]) + (EncodedAll(tick) + EncodedAll(rest)) == Flat(sent[j]) + EncodedAll(tick) + EncodedAll(rest);
    }
  }

  lemma AllIsSent(here: seq<bool>, sent: seq<seq<seq<byte>>>, all: seq<Packet>)
    requires SentSoFar(here, sent, [], all)
    ensures |sent| == |here| && forall j :: 0 <= j < |here| && here[j] ==> Flat(sent[j]) == EncodedAll(all)
  {
    NoPackets();
  }

  function Extended(sent: seq<seq<seq<byte>>>, more: seq<seq<seq<byte>>>): (sent': seq<seq<seq<byte>>>)
    requires |more| == |sent|
    ensures |sent'| == |sent| && forall j :: 0 <= j < |sent| ==> sent'[j] == sent[j] + more[j]
  {
    seq(|sent|, (j: int) requires 0 <= j < |sent| == |more| => sent[j] + more[j])
  }

  /** Where a run stands: the room holds the games, and they can go on. */
  ghost predicate RunStands(players: seq<Player>, boards: seq<Tetris>, ids: seq<int>, games: seq<PlayerGame>, rest: seq<RoomTick>)
    requires AreBoards(boards)
    reads players, boards, AllObjects(boards)
  {
    && Seats(players, boards, games) && AllSafe(games)
    && FitsRoomRun(games, ids, rest) && FairRun(games, ids, rest)
  }

  lemma RunGoesOn(games: seq<PlayerGame>, ids: seq<int>, rest: seq<RoomTick>)
    requires rest != [] && FitsRoomRun(games, ids, rest) && FairRun(games, ids, rest) && AllSafe(games)
    ensures FitsTick(games, ids, rest[0])
    ensures var (stay, games') := (Without(games, rest[0].gone), AfterTick(games, ids, rest[0]));
            && FitsRoom(stay, ids, rest[0].inputs) && AttacksAreHandedRound(stay, rest[0].inputs) && AllSafe(stay)
            && games' == RoomAfter(stay, ids, rest[0].inputs) && PacketsOf(games, ids, rest[0]) == TickPackets(stay, ids, rest[0].inputs, |stay|)
            && FitsRoomRun(games', ids, rest[1..]) && FairRun(games', ids, rest[1..]) && AllSafe(games')
            && RoomAfterRun(games, ids, rest) == RoomAfterRun(games', ids, rest[1..])
            && RunPackets(games, ids, rest) == PacketsOf(games, ids, rest[0]) + RunPackets(games', ids, rest[1..])
  {
    WithoutIsSafe(games, rest[0].gone);
    hide AllSafe, TickPackets, RoomAfter, FitsRoom, AttacksAreHandedRound;
    TickIsSafe(Without(games, rest[0].gone), ids, rest[0].inputs);
  }

  lemma WithoutIsSafe(games: seq<PlayerGame>, gone: seq<bool>)
    requires AllSafe(games) && |gone| == |games|
    ensures AllSafe(Without(games, gone))
  {
    hide Playable, IsAtRest, AllInBounds;
    forall j | 0 <= j < |games|
      ensures Safe(Without(games, gone)[j])
    {
      assert Safe(games[j]);
    }
  }

  /** Players leave the room: their slots have no session any more. */
  method Depart(players: seq<Player>, boards: seq<Tetris>, gone: seq<bool>, ghost games: seq<PlayerGame>)
    requires IsRoom(players) && NothingHeld(players) && AreBoards(boards) && Seats(players, boards, games) && |gone| == |games|
    modifies players`connected
    ensures IsRoom(players) && NothingHeld(players) && AreBoards(boards) && Seats(players, boards, Without(games, gone))
    ensures forall j :: 0 <= j < |players| ==> (players[j].connected <==> old(players[j].connected) && !gone[j])
  {
    ghost var views := Views(boards);
    DropSessions(players, gone);
    hide AreBoards, Views;
    assert Views(boards) == views;
  }

  method DropSessions(players: seq<Player>, gone: seq<bool>)
    requires IsRoom(players) && |gone| == |players|
    modifies players`connected
    ensures IsRoom(players)
    ensures forall j :: 0 <= j < |players| ==> (players[j].connected <==> old(players[j].connected) && !gone[j])
  {
    for j := 0 to |players|
      invariant IsRoom(players)
      invariant forall k :: 0 <= k < j ==> (players[k].connected <==> old(players[k].connected) && !gone[k])
      invariant forall k :: j <= k < |players| ==> players[k].connected == old(players[k].connected)
    {
      if gone[j] {
        players[j].connected := false;
      }
    }
  }

  function Remaining(here: seq<bool>, gone: seq<bool>): (here': seq<bool>)
    requires |gone| == |here|
    ensures |here'| == |here| && forall j :: 0 <= j < |here| ==> (here'[j] <==> here[j] && !gone[j])
  {
    seq(|here|, (j: int) requires 0 <= j < |here| == |gone| => here[j] && !gone[j])
  }

  /** The next tick of a game: whoever leaves is gone before it, and gets nothing of it. */
  method PlayTick(players: seq<Player>, boards: seq<Tetris>, ids: seq<int>, tick: RoomTick, ghost here: seq<bool>, ghost games: seq<PlayerGame>)
    returns (more: seq<seq<seq<byte>>>)
    requires IsRoom(players) && NothingHeld(players) && AreBoards(boards) && Seats(players, boards, games) && AreHere(players, here)
    requires FitsTick(games, ids, tick) && AttacksAreHandedRound(Without(games, tick.gone), tick.inputs) && AllSafe(Without(games, tick.gone))
    modifies players, (set p | p in players :: p.buffer), AllObjects(boards)
    ensures IsRoom(players) && NothingHeld(players) && AreBoards(boards) && Seats(players, boards, AfterTick(games, ids, tick))
    ensures |tick.gone| == |here| && AreHere(players, Remaining(here, tick.gone)) && |more| == |players|
    ensures forall j :: 0 <= j < |here| && Remaining(here, tick.gone)[j] ==> Flat(more[j]) == EncodedAll(PacketsOf(games, ids, tick))
  {
    assert |players| == |games|;
    hide AreBoards, IsRoom, NothingHeld, Seats, AllSafe, FitsRoom, AttacksAreHandedRound, RoomAfter, TickPackets, AllObjects, Views, Flat,
         EncodedAll;
    DifferentThings(players, boards);
    Depart(players, boards, tick.gone, games);
    assert AreHere(players, Remaining(here, tick.gone));
    hide AreHere, Remaining, Without;
    more := ProcessGameTick(players, boards, ids, tick.inputs, Without(games, tick.gone));
  }

  /** The player in a slot stays for the whole run. */
  predicate Stays(run: seq<RoomTick>, j: nat) {
    forall i :: 0 <= i < |run| ==> j < |run[i].gone| && !run[i].gone[j]
  }

  lemma StaysOn(run: seq<RoomTick>, i: nat, here: seq<bool>, start: seq<bool>)
    requires i < |run| && |run[i].gone| == |here| == |start| && forall j :: 0 <= j < |here| && start[j] && Stays(run, j) ==> here[j]
    ensures forall j :: 0 <= j < |here| && start[j] && Stays(run, j) ==> Remaining(here, run[i].gone)[j]
  {
  }

  /** The ticks of a game, one after the other. */
  method PlayTicks(players: seq<Player>, boards: seq<Tetris>, ids: seq<int>, run: seq<RoomTick>, sentBefore: seq<seq<seq<byte>>>,
                   ghost seated: seq<bool>, ghost start: seq<PlayerGame>, ghost all: seq<Packet>)
    returns (sent: seq<seq<seq<byte>>>, ghost here: seq<bool>)
    requires IsRoom(players) && NothingHeld(players) && AreBoards(boards) && RunStands(players, boards, ids, start, run)
    requires AreHere(players, seated) && SentSoFar(seated, sentBefore, RunPackets(start, ids, run), all)
    modifies players, (set p | p in players :: p.buffer), AllObjects(boards)
    ensures IsRoom(players) && NothingHeld(players) && AreBoards(boards) && Seats(players, boards, RoomAfterRun(start, ids, run))
    ensures AreHere(players, here) && forall j :: 0 <= j < |players| && seated[j] && Stays(run, j) ==> here[j]
    ensures |sent| == |players| && forall j :: 0 <= j < |players| && here[j] ==> Flat(sent[j]) == EncodedAll(all)
  {
    hide AreBoards, IsRoom, NothingHeld, Seats, AllSafe, FitsRoomRun, FairRun, FitsTick, AttacksAreHandedRound, AfterTick, RoomAfterRun,
         RunPackets, PacketsOf, SentSoFar, AllObjects, Views, Flat, EncodedAll, FitsRoom, RoomAfter, Stays;
    sent := sentBefore;
    here := seated;
    ghost var games := start;
    assert run[0..] == run;
    for i := 0 to |run|
      invariant IsRoom(players) && NothingHeld(players) && AreBoards(boards) && RunStands(players, boards, ids, games, run[i..])
      invariant AreHere(players, here) && SentSoFar(here, sent, RunPackets(games, ids, run[i..]), all)
      invariant RoomAfterRun(games, ids, run[i..]) == RoomAfterRun(start, ids, run)
      invariant |here| == |seated| && forall j :: 0 <= j < |here| && seated[j] && Stays(run, j) ==> here[j]
    {
      assert run[i..][0] == run[i] && run[i..][1..] == run[i + 1..];
      RunGoesOn(games, ids, run[i..]);
      ghost var (games', before) := (AfterTick(games, ids, run[i]), sent);
      SentHasAll(here, sent, RunPackets(games, ids, run[i..]), all);
      var more := PlayTick(players, boards, ids, run[i], here, games);
      sent := Extended(sent, more);
      SendMore(here, before, Remaining(here, run[i].gone), more, sent, PacketsOf(games, ids, run[i]), RunPackets(games', ids, run[i + 1..]), all);
      StaysOn(run, i, here, seated);
      here := Remaining(here, run[i].gone);
      assert RunStands(players, boards, ids, games', run[i + 1..]);
      games := games';
    }
    assert run[|run|..] == [];
    NoMoreRuns(games, ids);
    AllIsSent(here, sent, all);
  }

  lemma SentHasAll(here: seq<bool>, sent: seq<seq<seq<byte>>>, rest: seq<Packet>, all: seq<Packet>)
    requires SentSoFar(here, sent, rest, all)
    ensures |sent| == |here|
  {
  }

  lemma NoMoreRuns(games: seq<PlayerGame>, ids: seq<int>)
    ensures FitsRoomRun(games, ids, []) && RunPackets(games, ids, []) == [] && RoomAfterRun(games, ids, []) == games
  {
  }

  /** A multi-player game from its start, with players leaving as they like: everybody who stays is
      sent the bytes of the game's packets, and nothing else. */
  method PlayGame(players: seq<Player>, boards: seq<Tetris>, ids: seq<int>, seated: seq<bool>, kind: Kind, next: Kind, now: int,
                  run: seq<RoomTick>)
    returns (sent: seq<seq<seq<byte>>>)
    requires IsRoom(players) && NothingHeld(players) && AreBoards(boards) && |players| == |boards| == |ids| == |seated|
    requires forall j :: 0 <= j < |players| ==> seated[j] == players[j].connected
    requires forall j :: 0 <= j < |boards| && players[j].connected ==> IsAtRest(Views(boards)[j])
    requires FitsRoomRun(StartedRoom(seated, kind, now), ids, run) && FairRun(StartedRoom(seated, kind, now), ids, run)
    modifies players, (set p | p in players :: p.buffer), AllObjects(boards)
    ensures IsRoom(players) && AreBoards(boards) && Seats(players, boards, RoomAfterRun(StartedRoom(seated, kind, now), ids, run))
    ensures |sent| == |players|
    ensures forall j :: 0 <= j < |players| && seated[j] && Stays(run, j) ==>
              players[j].connected && Flat(sent[j]) == EncodedAll(GamePackets(ids, seated, kind, next, now, run))
  {
    hide AreBoards, IsRoom, NothingHeld, Seats, FitsRoomRun, FairRun, RoomAfterRun, RunPackets, StartPackets, AllObjects, Views, Flat,
         EncodedAll, Safe, IsAtRest, Started, Stays;
    ghost var games := StartedRoom(seated, kind, now);
    assert AreHere(players, seated);
    DifferentThings(players, boards);
    sent := StartGame(players, boards, ids, seated, kind, next, now);
    StartIsSafe(seated, kind, now);
    EncodedAllAppend(StartPackets(ids, seated, kind, next, |ids|), RunPackets(games, ids, run));
    ghost var here;
    sent, here := PlayTicks(players, boards, ids, run, sent, seated, games, GamePackets(ids, seated, kind, next, now, run));
  }

  lemma StartIsSafe(seated: seq<bool>, kind: Kind, now: int)
    ensures AllSafe(StartedRoom(seated, kind, now))
  {
    StartedIsPlayable(kind, now);
    SpawnInBounds(kind);
    hide Playable, AllInBounds, IsAtRest;
  }

  /** A client that has just connected reads what arrives. */
  method Listen(chunks: seq<seq<byte>>) returns (manager: PacketManager, raised: bool)
    ensures fresh(manager) && Heard(Flat(chunks), manager.queue, raised)
    ensures !raised ==> manager.recvBuffer == Parse(Flat(chunks), UNBOUNDED).rest
  {
    manager := new PacketManager();
    raised := RecvLoop(manager, chunks);
  }

  /** The whole way: a room plays a game, its bytes reach a player who stays, cut up in any way, and
      that player's client reads them. It raises no exception and has nothing left over; and
      dispatching what it has queued leaves it showing, for every player who is still in the
      game, exactly the cells and the piece of that player's board on the server. */
  method WatchGame(players: seq<Player>, boards: seq<Tetris>, ids: seq<int>, seated: seq<bool>, kind: Kind, next: Kind, now: int,
                   run: seq<RoomTick>, watcher: nat, cut: seq<byte> -> seq<seq<byte>>)
    returns (manager: PacketManager, raised: bool)
    requires IsRoom(players) && NothingHeld(players) && AreBoards(boards) && |players| == |boards| == |ids| == |seated|
    requires forall j :: 0 <= j < |players| ==> seated[j] == players[j].connected
    requires forall j :: 0 <= j < |boards| && players[j].connected ==> IsAtRest(Views(boards)[j])
    requires FitsRoomRun(StartedRoom(seated, kind, now), ids, run) && FairRun(StartedRoom(seated, kind, now), ids, run)
    requires Distinct(ids) && forall j :: 0 <= j < |ids| ==> FitsInt(ids[j])
    requires watcher < |players| && seated[watcher] && Stays(run, watcher) && forall stream :: Flat(cut(stream)) == stream
    modifies players, (set p | p in players :: p.buffer), AllObjects(boards)
    ensures AreBoards(boards) && Seats(players, boards, RoomAfterRun(StartedRoom(seated, kind, now), ids, run))
    ensures !raised && manager.recvBuffer == [] && AllReady(NewClients(|ids|))
    ensures var r := DispatchedAll(NewClients(|ids|), ids, manager.queue);
            r.Some? && Following(r.value, RoomAfterRun(StartedRoom(seated, kind, now), ids, run))
  {
    hide AreBoards, IsRoom, NothingHeld, FitsRoomRun, FairRun, RoomAfterRun, GamePackets, Views, Flat, EncodedAll, IsAtRest,
         Heard, Following, DispatchedAll, Started, StartedRoom, FitsInt, Distinct, PlayersIn, Stays;
    var sent := PlayGame(players, boards, ids, seated, kind, next, now, run);
    ghost var views := Views(boards);
    manager, raised := Listen(cut(Flat(sent[watcher])));
    assert AreBoards(boards) && Views(boards) == views;
    ClientFollowsServer(ids, seated, kind, next, now, run, manager.queue, raised);
  }
}
