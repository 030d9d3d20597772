/** From the server's games to the client's boards, on values: the packets of a room's game, what
    a client makes of their bytes, and that it shows the server's boards. `GameRoom` has the
    methods that produce these bytes in place. */
module EndToEnd {
  import opened Tetromino
  import opened Board
  import opened TickSpec
  import opened TickInvariant
  import opened Packets
  import opened Framing
  import opened Replay
  import CB = ClientBoard

  // ---------- The client's side ----------

  /** The slot a packet's player sits in: the first one with that id. */
  function SlotOf(ids: seq<int>, id: int): (r: Option<nat>)
    ensures r.Some? ==> r.value < |ids| && ids[r.value] == id
    ensures r.None? ==> id !in ids
  {
    if ids == [] then None
    else if ids[0] == id then Some(0)
    else match SlotOf(ids[1..], id)
      case None => None
      case Some(j) => Some(j + 1)
  }

  ghost predicate AllReady(clients: seq<CB.Client>) {
    forall j :: 0 <= j < |clients| ==> Ready(clients[j])
  }

  /** One packet goes to the board of its player. A game over leaves the boards as they are;
      the end of a game, which resets the room, does not occur in the runs below. */
  ghost function Dispatched(clients: seq<CB.Client>, ids: seq<int>, p: Packet): (r: Option<seq<CB.Client>>)
    requires |clients| == |ids| && AllReady(clients)
    ensures r.Some? ==> |r.value| == |ids| && AllReady(r.value)
  {
    if p.GameOverPacket? || p.GameEndPacket? then Some(clients)
    else match SlotOf(ids, p.id)
      case None => Some(clients)
      case Some(j) =>
        CB.AppliedKnown(clients[j], p);
        match CB.Applied(clients[j], p)
        case None => None
        case Some(c) => Some(clients[j := c])
  }

  ghost function DispatchedAll(clients: seq<CB.Client>, ids: seq<int>, packets: seq<Packet>): (r: Option<seq<CB.Client>>)
    requires |clients| == |ids| && AllReady(clients)
    ensures r.Some? ==> |r.value| == |ids| && AllReady(r.value)
    decreases |packets|
  {
    if packets == [] then Some(clients)
    else
      match DispatchedAll(clients, ids, packets[..|packets| - 1])
      case None => None
      case Some(before) => Dispatched(before, ids, packets[|packets| - 1])
  }

  lemma {:induction false} DispatchedAppend(clients: seq<CB.Client>, ids: seq<int>, a: seq<Packet>, b: seq<Packet>)
    requires |clients| == |ids| && AllReady(clients) && DispatchedAll(clients, ids, a).Some?
    ensures DispatchedAll(clients, ids, a + b) == DispatchedAll(DispatchedAll(clients, ids, a).value, ids, b)
    decreases |b|
  {
    if b == [] {
      assert a + b == a;
    } else {
      var init := b[..|b| - 1];
      assert (a + b)[..|a + b| - 1] == a + init;
      DispatchedAppend(clients, ids, a, init);
    }
  }

  predicate Distinct(ids: seq<int>) {
    forall i, j :: 0 <= i < j < |ids| ==> ids[i] != ids[j]
  }

  lemma {:induction false} SlotIsFound(ids: seq<int>, j: nat)
    requires j < |ids| && Distinct(ids)
    ensures SlotOf(ids, ids[j]) == Some(j)
  {
    var r := SlotOf(ids, ids[j]);
    assert ids[j] in ids;
  }

  /** Packets that all belong to one player move that player's board and no other. */
  predicate BelongTo(packets: seq<Packet>, id: int) {
    forall k :: 0 <= k < |packets| ==> packets[k].GameEndPacket? || packets[k].id == id
  }

  lemma {:induction false} DispatchedToOne(clients: seq<CB.Client>, ids: seq<int>, j: nat, packets: seq<Packet>)
    requires |clients| == |ids| && AllReady(clients) && j < |ids| && Distinct(ids)
    requires BelongTo(packets, ids[j]) && CB.Replayed(clients[j], packets).Some?
    ensures DispatchedAll(clients, ids, packets) == Some(clients[j := CB.Replayed(clients[j], packets).value])
    decreases |packets|
  {
    if packets == [] {
      assert clients[j := clients[j]] == clients;
    } else {
      var init, last := packets[..|packets| - 1], packets[|packets| - 1];
      DispatchedToOne(clients, ids, j, init);
      SlotIsFound(ids, j);
      var before := clients[j := CB.Replayed(clients[j], init).value];
      assert before[j := before[j]] == before;
      var c := CB.Applied(before[j], last);
      assert CB.Replayed(clients[j], packets) == c;
      assert before[j := c.value] == clients[j := c.value];
    }
  }

  // ---------- The wire ----------

  function Frames(packets: seq<Packet>): (frames: seq<seq<byte>>)
    ensures |frames| == |packets|
    ensures forall k :: 0 <= k < |packets| ==> frames[k] == Encoded(packets[k])
  {
    seq(|packets|, (k: int) requires 0 <= k < |packets| => Encoded(packets[k]))
  }

  function AllWrapped(packets: seq<Packet>): (wrapped: seq<Packet>)
    ensures |wrapped| == |packets|
    ensures forall k :: 0 <= k < |packets| ==> wrapped[k] == Wrapped(packets[k])
  {
    seq(|packets|, (k: int) requires 0 <= k < |packets| => Wrapped(packets[k]))
  }

  lemma EncodedIsFrame(p: Packet)
    ensures IsFrame(Encoded(p), UNBOUNDED)
  {
    var size := PacketSize(p);
    assert Encoded(p)[0] as int == size % 256 && Encoded(p)[1] as int == size / 256;
  }

  lemma {:induction false} FramesAreTheStream(packets: seq<Packet>)
    ensures Flat(Frames(packets)) == EncodedAll(packets)
  {
    hide Encoded, Flat;
    if packets == [] {
      FlatCons([], []);
      assert Frames(packets) == [];
    } else {
      var init, last := packets[..|packets| - 1], packets[|packets| - 1];
      FramesAreTheStream(init);
      assert Frames(packets) == Frames(init) + [Encoded(last)];
      FlatSnoc(Frames(init), Encoded(last));
    }
  }

  /** A client that has heard the bytes of some packets has queued exactly those packets, with
      their fields narrowed to the wire, and has nothing left over. */
  lemma StreamArrives(packets: seq<Packet>, queue: seq<Packet>, raised: bool)
    requires Heard(EncodedAll(packets), queue, raised)
    ensures !raised && queue == AllWrapped(packets) && Parse(EncodedAll(packets), UNBOUNDED).rest == []
  {
    hide Encoded, Decoded, EncodedAll, Wrapped;
    FramesAreTheStream(packets);
    var frames := Frames(packets);
    forall k | 0 <= k < |frames|
      ensures IsFrame(frames[k], UNBOUNDED) && Decoded(frames[k]) == Some(Wrapped(packets[k]))
    {
      EncodedIsFrame(packets[k]);
      RoundTrip(packets[k]);
    }
    ParseOfFrames(frames, [], UNBOUNDED);
    NoFirstFrame([], UNBOUNDED);
    assert Flat(frames) == Flat(frames) + [] && frames + Parse([], UNBOUNDED).frames == frames;
    AllUnderstood(frames);
    assert frames[..|frames|] == frames;
    assert Messages(frames) == AllWrapped(packets);
  }

  lemma {:induction false} AllUnderstood(frames: seq<seq<byte>>)
    requires AreFrames(frames, UNBOUNDED) && forall k :: 0 <= k < |frames| ==> Decoded(frames[k]).Some?
    ensures Understood(frames) == |frames|
  {
    hide Decoded;
    if frames != [] {
      AllUnderstood(frames[1..]);
    }
  }

  lemma {:induction false} EncodedAllAppend(a: seq<Packet>, b: seq<Packet>)
    ensures EncodedAll(a + b) == EncodedAll(a) + EncodedAll(b)
  {
    hide Encoded;
    if b == [] {
      assert a + b == a;
    } else {
      var init, last := b[..|b| - 1], b[|b| - 1];
      assert (a + b)[..|a + b| - 1] == a + init;
      EncodedAllAppend(a, init);
    }
  }

  // ---------- A room ----------

  /** The packets one slot adds to a tick; a player who is out adds none. */
  function SlotPackets(g: PlayerGame, id: int, i: TickInput): seq<Packet>
    requires g.state.WellFormed() && FitsInput(g.state, i)
  {
    if g.playing then TaskPackets(TickOf(g, i).tasks, id, i) else []
  }

  ghost predicate FitsRoom(games: seq<PlayerGame>, ids: seq<int>, inputs: seq<TickInput>) {
    && |games| == |ids| == |inputs|
    && (forall j :: 0 <= j < |games| ==> games[j].state.WellFormed() && FitsInput(games[j].state, inputs[j]))
    && (forall j :: 0 <= j < |games| ==> inputs[j].single || !inputs[j].ended)
  }

  /** The packets of a tick, slot by slot. */
  ghost function TickPackets(games: seq<PlayerGame>, ids: seq<int>, inputs: seq<TickInput>, n: nat): seq<Packet>
    requires FitsRoom(games, ids, inputs) && n <= |games|
  {
    if n == 0 then [] else TickPackets(games, ids, inputs, n - 1) + SlotPackets(games[n - 1], ids[n - 1], inputs[n - 1])
  }

  ghost function RoomAfter(games: seq<PlayerGame>, ids: seq<int>, inputs: seq<TickInput>): (games': seq<PlayerGame>)
    requires FitsRoom(games, ids, inputs)
    ensures |games'| == |games|
    ensures forall j :: 0 <= j < |games| ==> games'[j] == PlayerTick(games[j], inputs[j])
  {
    seq(|games|, (j: int) requires 0 <= j < |games| && FitsRoom(games, ids, inputs) => PlayerTick(games[j], inputs[j]))
  }

  /** One tick of a room's run: who has left the room since the last one, and what the tick
      brings. */
  datatype RoomTick = RoomTick(gone: seq<bool>, inputs: seq<TickInput>)

  /** Whoever has left is out of the game. */
  function Without(games: seq<PlayerGame>, gone: seq<bool>): (games': seq<PlayerGame>)
    requires |gone| == |games|
    ensures |games'| == |games|
    ensures forall j :: 0 <= j < |games| ==> games'[j] == games[j].(playing := games[j].playing && !gone[j])
  {
    seq(|games|, (j: int) requires 0 <= j < |games| == |gone| => games[j].(playing := games[j].playing && !gone[j]))
  }

  ghost predicate FitsTick(games: seq<PlayerGame>, ids: seq<int>, tick: RoomTick) {
    |tick.gone| == |games| && FitsRoom(Without(games, tick.gone), ids, tick.inputs)
  }

  ghost function AfterTick(games: seq<PlayerGame>, ids: seq<int>, tick: RoomTick): (games': seq<PlayerGame>)
    requires FitsTick(games, ids, tick)
    ensures |games'| == |games|
  {
    RoomAfter(Without(games, tick.gone), ids, tick.inputs)
  }

  ghost function PacketsOf(games: seq<PlayerGame>, ids: seq<int>, tick: RoomTick): seq<Packet>
    requires FitsTick(games, ids, tick)
  {
    TickPackets(Without(games, tick.gone), ids, tick.inputs, |games|)
  }

  ghost predicate FitsRoomRun(games: seq<PlayerGame>, ids: seq<int>, run: seq<RoomTick>)
    decreases |run|
  {
    run == [] || (FitsTick(games, ids, run[0]) && FitsRoomRun(AfterTick(games, ids, run[0]), ids, run[1..]))
  }

  ghost function RoomAfterRun(games: seq<PlayerGame>, ids: seq<int>, run: seq<RoomTick>): seq<PlayerGame>
    requires FitsRoomRun(games, ids, run)
    decreases |run|
  {
    if run == [] then games else RoomAfterRun(AfterTick(games, ids, run[0]), ids, run[1..])
  }

  ghost function RunPackets(games: seq<PlayerGame>, ids: seq<int>, run: seq<RoomTick>): seq<Packet>
    requires FitsRoomRun(games, ids, run)
    decreases |run|
  {
    if run == [] then []
    else PacketsOf(games, ids, run[0]) + RunPackets(AfterTick(games, ids, run[0]), ids, run[1..])
  }

  lemma NoPackets()
    ensures EncodedAll([]) == []
  {
  }

  /** The bytes of the slots, put together, are the encoded packets of the tick. */
  lemma {:induction false} TickStream(games: seq<PlayerGame>, ids: seq<int>, inputs: seq<TickInput>, offers: seq<seq<byte>>, n: nat)
    requires FitsRoom(games, ids, inputs) && n <= |games| == |offers|
    requires forall j :: 0 <= j < |games| ==> offers[j] == EncodedAll(SlotPackets(games[j], ids[j], inputs[j]))
    ensures Flat(offers[..n]) == EncodedAll(TickPackets(games, ids, inputs, n))
  {
    hide SlotPackets, EncodedAll, Flat, FitsInput;
    FlatCons([], []);
    NoPackets();
    if n > 0 {
      var last := offers[n - 1];
      TickStream(games, ids, inputs, offers, n - 1);
      assert offers[..n] == offers[..n - 1] + [last];
      FlatSnoc(offers[..n - 1], last);
      EncodedAllAppend(TickPackets(games, ids, inputs, n - 1), SlotPackets(games[n - 1], ids[n - 1], inputs[n - 1]));
    }
  }

  // ---------- Narrowed fields ----------

  /** What the wire narrows does not matter to a board: the ids and coordinates fit, and the
      score and the combo are only displayed. */
  lemma WrapIsHarmless(c: CB.Client, t: Task, id: int, i: TickInput)
    requires Ready(c) && FitsInt(id) && TaskFits(t)
    ensures var p := TaskPacket(t, id, i);
            && CB.Applied(c, Wrapped(p)) == CB.Applied(c, p)
            && (Wrapped(p).GameEndPacket? || Wrapped(p).id == id)
  {
    hide ToInt, FromInt, ToChar, FromChar;
  }

  /** A player's packets, with one more task. */
  lemma PacketsSnoc(tasks: seq<Task>, t: Task, id: int, i: TickInput)
    ensures TaskPackets(tasks + [t], id, i) == TaskPackets(tasks, id, i) + [TaskPacket(t, id, i)]
    ensures AllWrapped(TaskPackets(tasks + [t], id, i)) == AllWrapped(TaskPackets(tasks, id, i)) + [Wrapped(TaskPacket(t, id, i))]
  {
    hide TaskPacket, Wrapped;
  }

  lemma ReplaySnoc(c: CB.Client, packets: seq<Packet>, p: Packet)
    requires Ready(c)
    ensures var before := CB.Replayed(c, packets);
            CB.Replayed(c, packets + [p]) == if before.None? then None else CB.Applied(before.value, p)
  {
    assert (packets + [p])[..|packets|] == packets;
  }

  lemma {:induction false} WrappedReplay(c: CB.Client, tasks: seq<Task>, id: int, i: TickInput)
    requires Ready(c) && FitsInt(id) && AllFit(tasks)
    ensures var packets := AllWrapped(TaskPackets(tasks, id, i));
            BelongTo(packets, id) && CB.Replayed(c, packets) == CB.Replayed(c, TaskPackets(tasks, id, i))
    decreases |tasks|
  {
    if tasks == [] {
      assert AllWrapped(TaskPackets(tasks, id, i)) == TaskPackets(tasks, id, i);
      return;
    }
    hide Wrapped, TaskPacket, CB.Applied, CB.Replayed, TaskFits;
    var init, last := tasks[..|tasks| - 1], tasks[|tasks| - 1];
    assert tasks == init + [last];
    WrappedReplay(c, init, id, i);
    PacketsSnoc(init, last, id, i);
    var p := TaskPacket(last, id, i);
    ReplaySnoc(c, TaskPackets(init, id, i), p);
    ReplaySnoc(c, AllWrapped(TaskPackets(init, id, i)), Wrapped(p));
    WrapIsHarmless(c, last, id, i);
    var before := CB.Replayed(c, TaskPackets(init, id, i));
    if before.Some? {
      WrapIsHarmless(before.value, last, id, i);
    }
  }

  // ---------- The whole way ----------

  /** Every player who is still in the game is playable, and their board on the client shows
      the server's cells and the server's piece. */
  ghost predicate SlotFollows(c: CB.Client, g: PlayerGame) {
    g.playing ==> Playable(g.state) && Mirrors(c, g.state.board, g.state.piece, false)
  }

  ghost predicate Following(clients: seq<CB.Client>, games: seq<PlayerGame>) {
    && |clients| == |games| && AllReady(clients)
    && forall j :: 0 <= j < |games| ==> SlotFollows(clients[j], games[j])
  }

  lemma SlotTick(c: CB.Client, g: PlayerGame, id: int, i: TickInput)
    requires Ready(c) && SlotFollows(c, g) && g.state.WellFormed() && FitsInput(g.state, i)
    requires FitsInt(id) && (i.single || !i.ended)
    ensures var packets := AllWrapped(SlotPackets(g, id, i));
            var r := CB.Replayed(c, packets);
            BelongTo(packets, id) && r.Some? && SlotFollows(r.value, PlayerTick(g, i))
  {
    hide Played, Mirrors, FitsInput, StoppedAfterLock, IsOver, Ticked, CB.Replayed;
    if g.playing {
      CoordinatesFitInByte(g.state, i);
      WrappedReplay(c, Played(g.state, i).tasks, id, i);
      TickReplays(c, g.state, id, i);
      if !IsOver(Played(g.state, i).tasks) {
        TickKeepsPlayable(g.state, i);
        NoStopWhilePlaying(g.state, i);
      }
    } else {
      NothingReplayed(c);
    }
  }

  lemma NothingReplayed(c: CB.Client)
    requires Ready(c)
    ensures AllWrapped([]) == [] && CB.Replayed(c, []) == Some(c)
  {
  }

  /** One slot's packets, dispatched. */
  lemma SlotDispatched(before: seq<CB.Client>, ids: seq<int>, j: nat, g: PlayerGame, i: TickInput)
    requires |before| == |ids| && AllReady(before) && j < |ids| && Distinct(ids) && FitsInt(ids[j])
    requires SlotFollows(before[j], g) && g.state.WellFormed() && FitsInput(g.state, i) && (i.single || !i.ended)
    ensures var r := DispatchedAll(before, ids, AllWrapped(SlotPackets(g, ids[j], i)));
            && r.Some? && SlotFollows(r.value[j], PlayerTick(g, i))
            && forall k :: 0 <= k < |ids| && k != j ==> r.value[k] == before[k]
  {
    hide SlotFollows, SlotPackets, PlayerTick, CB.Replayed, DispatchedAll, BelongTo, FitsInt, Distinct, FitsInput;
    SlotTick(before[j], g, ids[j], i);
    DispatchedToOne(before, ids, j, AllWrapped(SlotPackets(g, ids[j], i)));
  }

  lemma WrappedAppend(a: seq<Packet>, b: seq<Packet>)
    ensures AllWrapped(a + b) == AllWrapped(a) + AllWrapped(b)
  {
  }

  /** The first `n` slots have had their tick and the others have not. */
  ghost predicate TickedTo(after: seq<CB.Client>, before: seq<CB.Client>, games: seq<PlayerGame>, inputs: seq<TickInput>, n: nat)
    requires |after| == |before| == |games| == |inputs| && n <= |games|
    requires forall j :: 0 <= j < |games| ==> games[j].state.WellFormed() && FitsInput(games[j].state, inputs[j])
  {
    && (forall j :: 0 <= j < n ==> SlotFollows(after[j], PlayerTick(games[j], inputs[j])))
    && (forall j :: n <= j < |games| ==> after[j] == before[j])
  }

  lemma NextSlot(before: seq<CB.Client>, clients: seq<CB.Client>, games: seq<PlayerGame>, ids: seq<int>, inputs: seq<TickInput>, n: nat)
    requires Following(clients, games) && FitsRoom(games, ids, inputs) && n < |games|
    requires Distinct(ids) && forall j :: 0 <= j < |ids| ==> FitsInt(ids[j])
    requires |before| == |games| && AllReady(before) && TickedTo(before, clients, games, inputs, n)
    ensures var r := DispatchedAll(before, ids, AllWrapped(SlotPackets(games[n], ids[n], inputs[n])));
            r.Some? && TickedTo(r.value, clients, games, inputs, n + 1)
  {
    hide SlotFollows, SlotPackets, PlayerTick, DispatchedAll, FitsInt, Distinct, FitsInput, AllWrapped;
    SlotDispatched(before, ids, n, games[n], inputs[n]);
  }

  /** The client has followed the first `n` slots of the tick. */
  ghost predicate FollowedTo(clients: seq<CB.Client>, games: seq<PlayerGame>, ids: seq<int>, inputs: seq<TickInput>, n: nat)
    requires Following(clients, games) && FitsRoom(games, ids, inputs) && n <= |games|
  {
    var r := DispatchedAll(clients, ids, AllWrapped(TickPackets(games, ids, inputs, n)));
    r.Some? && TickedTo(r.value, clients, games, inputs, n)
  }

  lemma FollowedNothing(clients: seq<CB.Client>, games: seq<PlayerGame>, ids: seq<int>, inputs: seq<TickInput>)
    requires Following(clients, games) && FitsRoom(games, ids, inputs)
    ensures FollowedTo(clients, games, ids, inputs, 0)
  {
    hide FitsInput, Playable, Mirrors, PlayerTick;
    assert AllWrapped(TickPackets(games, ids, inputs, 0)) == [];
  }

  lemma FollowedOneMore(clients: seq<CB.Client>, games: seq<PlayerGame>, ids: seq<int>, inputs: seq<TickInput>, n: nat)
    requires Following(clients, games) && FitsRoom(games, ids, inputs) && n < |games|
    requires Distinct(ids) && forall j :: 0 <= j < |ids| ==> FitsInt(ids[j])
    requires FollowedTo(clients, games, ids, inputs, n)
    ensures FollowedTo(clients, games, ids, inputs, n + 1)
  {
    hide SlotFollows, SlotPackets, PlayerTick, DispatchedAll, FitsInt, Distinct, FitsInput, TickedTo, AllWrapped;
    var first := TickPackets(games, ids, inputs, n);
    var next := SlotPackets(games[n], ids[n], inputs[n]);
    WrappedAppend(first, next);
    DispatchedAppend(clients, ids, AllWrapped(first), AllWrapped(next));
    NextSlot(DispatchedAll(clients, ids, AllWrapped(first)).value, clients, games, ids, inputs, n);
  }

  lemma {:induction false} TickFollows(clients: seq<CB.Client>, games: seq<PlayerGame>, ids: seq<int>, inputs: seq<TickInput>, n: nat)
    requires Following(clients, games) && FitsRoom(games, ids, inputs) && n <= |games|
    requires Distinct(ids) && forall j :: 0 <= j < |ids| ==> FitsInt(ids[j])
    ensures FollowedTo(clients, games, ids, inputs, n)
  {
    hide Following, FitsRoom, FollowedTo, Distinct, FitsInt;
    if n == 0 {
      FollowedNothing(clients, games, ids, inputs);
    } else {
      TickFollows(clients, games, ids, inputs, n - 1);
      FollowedOneMore(clients, games, ids, inputs, n - 1);
    }
  }

  /** Nothing is asked of the board of a player who has left. */
  lemma FollowingWithout(clients: seq<CB.Client>, games: seq<PlayerGame>, gone: seq<bool>)
    requires Following(clients, games) && |gone| == |games|
    ensures Following(clients, Without(games, gone))
  {
    hide Playable, Mirrors, Ready;
    forall j | 0 <= j < |games|
      ensures SlotFollows(clients[j], Without(games, gone)[j])
    {
      assert SlotFollows(clients[j], games[j]);
    }
  }

  lemma RoomTickFollows(clients: seq<CB.Client>, games: seq<PlayerGame>, ids: seq<int>, tick: RoomTick)
    requires Following(clients, games) && |games| == |ids| && FitsTick(games, ids, tick)
    requires Distinct(ids) && forall j :: 0 <= j < |ids| ==> FitsInt(ids[j])
    ensures var r := DispatchedAll(clients, ids, AllWrapped(PacketsOf(games, ids, tick)));
            r.Some? && Following(r.value, AfterTick(games, ids, tick))
  {
    FollowingWithout(clients, games, tick.gone);
    hide DispatchedAll, SlotFollows, PlayerTick, TickPackets, FitsInput, FitsInt, Distinct, Wrapped;
    TickFollows(clients, Without(games, tick.gone), ids, tick.inputs, |games|);
  }

  lemma {:induction false} RunFollows(clients: seq<CB.Client>, games: seq<PlayerGame>, ids: seq<int>, run: seq<RoomTick>)
    requires Following(clients, games) && |games| == |ids| && FitsRoomRun(games, ids, run)
    requires Distinct(ids) && forall j :: 0 <= j < |ids| ==> FitsInt(ids[j])
    ensures var r := DispatchedAll(clients, ids, AllWrapped(RunPackets(games, ids, run)));
            r.Some? && Following(r.value, RoomAfterRun(games, ids, run))
    decreases |run|
  {
    ClientsFit(clients, games);
    if run == [] {
      assert AllWrapped(RunPackets(games, ids, run)) == [];
      return;
    }
    hide DispatchedAll, Following, AfterTick, PacketsOf, FitsTick, FitsInt, Distinct, Wrapped, AllReady;
    var games' := AfterTick(games, ids, run[0]);
    RoomTickFollows(clients, games, ids, run[0]);
    var first := PacketsOf(games, ids, run[0]);
    var rest := RunPackets(games', ids, run[1..]);
    RunFollows(DispatchedAll(clients, ids, AllWrapped(first)).value, games', ids, run[1..]);
    WrappedAppend(first, rest);
    DispatchedAppend(clients, ids, AllWrapped(first), AllWrapped(rest));
  }

  lemma ClientsFit(clients: seq<CB.Client>, games: seq<PlayerGame>)
    requires Following(clients, games)
    ensures |clients| == |games| && AllReady(clients)
  {
  }

  // ---------- The start of a game ----------

  /** What the start of a game tells a client about a player: the first piece and the next one. */
  function StartPacket(id: int, kind: Kind, next: Kind): Packet {
    TaskPacket(Spawn, id, TickInput(0, [], 0, [], kind, next, 0, 0, false, false, 0))
  }

  /** Its bytes, and what a new client makes of them: the first piece at (3, 0), and the next kind in
      the preview. */
  lemma StartPacketShows(id: int, kind: Kind, next: Kind)
    requires Ready(NEW_CLIENT)
    ensures Encoded(StartPacket(id, kind, next)) == [11, 0, 25] + ToInt(id) + [ToChar(KindIndex(kind)), ToChar(KindIndex(next)), 3, 0]
    ensures CB.Applied(NEW_CLIENT, StartPacket(id, kind, next)) ==
              Some(NEW_CLIENT.(current := Some(CB.Piece(KeyOf(kind), 3, 0, 0)), nextKey := Some(KeyOf(next))))
  {
    hide ToInt;
    TaskBytes(Spawn, id, TickInput(0, [], 0, [], kind, next, 0, 0, false, false, 0));
  }

  /** For the players in front of slot `n` who take part. */
  function StartPackets(ids: seq<int>, seated: seq<bool>, kind: Kind, next: Kind, n: nat): seq<Packet>
    requires |seated| == |ids| && n <= |ids|
  {
    if n == 0 then []
    else StartPackets(ids, seated, kind, next, n - 1) + StartPacketsOf(ids[n - 1], seated[n - 1], kind, next)
  }

  /** Everybody who takes part starts with the first piece of the room's list. */
  function StartedRoom(seated: seq<bool>, kind: Kind, now: int): (games: seq<PlayerGame>)
    ensures |games| == |seated|
    ensures forall j :: 0 <= j < |seated| ==> games[j] == PlayerGame(Started(kind, now), seated[j])
  {
    seq(|seated|, (j: int) requires 0 <= j < |seated| => PlayerGame(Started(kind, now), seated[j]))
  }

  const NEW_CLIENT := CB.Client(CB.EmptyGrid(), None, None)

  function NewClients(n: nat): (clients: seq<CB.Client>)
    ensures |clients| == n && forall j :: 0 <= j < n ==> clients[j] == NEW_CLIENT
  {
    seq(n, _ => NEW_CLIENT)
  }

  lemma NewClientsReady(n: nat)
    ensures AllReady(NewClients(n))
  {
  }

  /** An empty grid without a piece shows an empty board. */
  lemma NothingMirrors(kind: Kind, now: int)
    ensures Ready(NEW_CLIENT) && Mirrors(NEW_CLIENT, Started(kind, now).board, Started(kind, now).piece, true)
    ensures Started(kind, now).piece == NewTetromino(kind, SPAWN_POSITION)
  {
  }

  lemma StartApplied(id: int, kind: Kind, next: Kind, now: int)
    requires FitsInt(id) && Ready(NEW_CLIENT)
    ensures var p := Wrapped(StartPacket(id, kind, next));
            var r := CB.Applied(NEW_CLIENT, p);
            p.SpawnPacket? && p.id == id && r.Some? && Mirrors(r.value, Started(kind, now).board, Started(kind, now).piece, false)
  {
    var i := TickInput(0, [], 0, [], kind, next, 0, 0, false, false, 0);
    var s := Started(kind, now);
    NothingMirrors(kind, now);
    hide Mirrors, EmptyBoard, CB.EmptyGrid, CB.Applied, Started, FitsInt;
    SpawnMirrors(NEW_CLIENT, s.board, s.piece, id, i, true);
    WrapIsHarmless(NEW_CLIENT, Spawn, id, i);
  }

  /** A client that is told of the first piece shows what the player starts with. */
  lemma StartMirrors(id: int, kind: Kind, next: Kind, now: int)
    requires FitsInt(id)
    ensures Ready(NEW_CLIENT)
    ensures var packets := AllWrapped([StartPacket(id, kind, next)]);
            var r := CB.Replayed(NEW_CLIENT, packets);
            BelongTo(packets, id) && r.Some? && SlotFollows(r.value, PlayerGame(Started(kind, now), true))
  {
    StartedIsPlayable(kind, now);
    StartApplied(id, kind, next, now);
    hide Mirrors, CB.Applied, CB.Replayed, Wrapped, Playable, Started, FitsInt, StartPacket, Ready, SlotFollows;
    SlotStarts(NEW_CLIENT, StartPacket(id, kind, next), id, PlayerGame(Started(kind, now), true));
  }

  lemma SlotStarts(c: CB.Client, p: Packet, id: int, g: PlayerGame)
    requires Ready(c) && Playable(g.state) && Wrapped(p).SpawnPacket? && Wrapped(p).id == id
    requires var r := CB.Applied(c, Wrapped(p)); r.Some? && Mirrors(r.value, g.state.board, g.state.piece, false)
    ensures var r := CB.Replayed(c, AllWrapped([p]));
            BelongTo(AllWrapped([p]), id) && r.Some? && SlotFollows(r.value, g)
  {
    hide Mirrors, CB.Applied, CB.Replayed, Wrapped, Playable;
    ReplayOne(c, p);
  }

  lemma ReplayOne(c: CB.Client, p: Packet)
    requires Ready(c)
    ensures AllWrapped([p]) == [Wrapped(p)] && CB.Replayed(c, AllWrapped([p])) == CB.Applied(c, Wrapped(p))
  {
    hide Wrapped, CB.Applied;
    var packets := AllWrapped([p]);
    assert packets[..0] == [];
  }

  /** After the start packets of the first `n` slots those slots are followed, and the others
      are as they were. */
  ghost predicate StartedTo(clients: seq<CB.Client>, ids: seq<int>, seated: seq<bool>, kind: Kind, now: int, n: nat)
    requires |clients| == |ids| == |seated| && n <= |ids|
  {
    && (forall j :: 0 <= j < n ==> SlotFollows(clients[j], PlayerGame(Started(kind, now), seated[j])))
    && (forall j :: n <= j < |ids| ==> clients[j] == NEW_CLIENT)
  }

  /** The packets of slot `n`, if it takes part. */
  function StartPacketsOf(id: int, seated: bool, kind: Kind, next: Kind): seq<Packet> {
    if seated then [StartPacket(id, kind, next)] else []
  }

  lemma StartOneMore(clients: seq<CB.Client>, ids: seq<int>, seated: seq<bool>, kind: Kind, next: Kind, now: int, n: nat)
    requires |clients| == |ids| == |seated| && n < |ids| && AllReady(clients) && StartedTo(clients, ids, seated, kind, now, n)
    requires Distinct(ids) && FitsInt(ids[n])
    ensures var r := DispatchedAll(clients, ids, AllWrapped(StartPacketsOf(ids[n], seated[n], kind, next)));
            r.Some? && StartedTo(r.value, ids, seated, kind, now, n + 1)
  {
    hide SlotFollows, DispatchedAll, FitsInt, Distinct, StartPacket, CB.Replayed, Started, AllWrapped, CB.EmptyGrid, AllReady;
    if seated[n] {
      StartOne(clients, ids, kind, next, now, n);
    } else {
      NobodyFollows(clients[n], PlayerGame(Started(kind, now), false));
      NothingDispatched(clients, ids);
    }
  }

  lemma StartOne(clients: seq<CB.Client>, ids: seq<int>, kind: Kind, next: Kind, now: int, n: nat)
    requires |clients| == |ids| && n < |ids| && AllReady(clients) && clients[n] == NEW_CLIENT && Distinct(ids) && FitsInt(ids[n])
    ensures var r := DispatchedAll(clients, ids, AllWrapped([StartPacket(ids[n], kind, next)]));
            && r.Some? && |r.value| == |ids| && SlotFollows(r.value[n], PlayerGame(Started(kind, now), true))
            && forall j :: 0 <= j < |ids| && j != n ==> r.value[j] == clients[j]
  {
    hide SlotFollows, DispatchedAll, FitsInt, Distinct, StartPacket, BelongTo, CB.Replayed, Started, AllWrapped, CB.EmptyGrid;
    StartMirrors(ids[n], kind, next, now);
    DispatchedToOne(clients, ids, n, AllWrapped([StartPacket(ids[n], kind, next)]));
  }

  lemma {:induction false} StartDispatched(ids: seq<int>, seated: seq<bool>, kind: Kind, next: Kind, now: int, n: nat)
    requires |seated| == |ids| && n <= |ids| && Distinct(ids) && forall j :: 0 <= j < |ids| ==> FitsInt(ids[j])
    ensures AllReady(NewClients(|ids|))
    ensures var r := DispatchedAll(NewClients(|ids|), ids, AllWrapped(StartPackets(ids, seated, kind, next, n)));
            r.Some? && StartedTo(r.value, ids, seated, kind, now, n)
  {
    NewClientsReady(|ids|);
    hide AllReady, SlotFollows, DispatchedAll, FitsInt, Distinct, StartPacketsOf, AllWrapped, Started, StartedTo, NewClients;
    if n == 0 {
      NothingDispatched(NewClients(|ids|), ids);
      NobodyStarted(ids, seated, kind, now);
    } else {
      StartDispatched(ids, seated, kind, next, now, n - 1);
      var first := StartPackets(ids, seated, kind, next, n - 1);
      var last := StartPacketsOf(ids[n - 1], seated[n - 1], kind, next);
      StartOneMore(DispatchedAll(NewClients(|ids|), ids, AllWrapped(first)).value, ids, seated, kind, next, now, n - 1);
      WrappedAppend(first, last);
      DispatchedAppend(NewClients(|ids|), ids, AllWrapped(first), AllWrapped(last));
    }
  }

  lemma NobodyStarted(ids: seq<int>, seated: seq<bool>, kind: Kind, now: int)
    requires |seated| == |ids|
    ensures StartedTo(NewClients(|ids|), ids, seated, kind, now, 0)
  {
  }

  lemma NothingDispatched(clients: seq<CB.Client>, ids: seq<int>)
    requires |clients| == |ids| && AllReady(clients)
    ensures AllWrapped([]) == [] && DispatchedAll(clients, ids, []) == Some(clients)
  {
  }

  lemma NobodyFollows(c: CB.Client, g: PlayerGame)
    requires !g.playing
    ensures SlotFollows(c, g)
  {
  }

  // ---------- A whole game ----------

  /** All packets of a room's game, from the first pieces on. */
  ghost function GamePackets(ids: seq<int>, seated: seq<bool>, kind: Kind, next: Kind, now: int, run: seq<RoomTick>): seq<Packet>
    requires |seated| == |ids| && FitsRoomRun(StartedRoom(seated, kind, now), ids, run)
  {
    StartPackets(ids, seated, kind, next, |ids|) + RunPackets(StartedRoom(seated, kind, now), ids, run)
  }

  /** Take any game of a room, from its start over any run of ticks, with players leaving. A client
      that has heard the bytes of its packets has raised no exception and has nothing left over;
      and dispatching what it has queued makes it show, for every player who is still playing,
      exactly the server's occupied cells and the server's piece. */
  lemma ClientFollowsServer(ids: seq<int>, seated: seq<bool>, kind: Kind, next: Kind, now: int, run: seq<RoomTick>,
                            queue: seq<Packet>, raised: bool)
    requires |seated| == |ids| && Distinct(ids) && forall j :: 0 <= j < |ids| ==> FitsInt(ids[j])
    requires FitsRoomRun(StartedRoom(seated, kind, now), ids, run)
    requires Heard(EncodedAll(GamePackets(ids, seated, kind, next, now, run)), queue, raised)
    ensures !raised && Parse(EncodedAll(GamePackets(ids, seated, kind, next, now, run)), UNBOUNDED).rest == []
    ensures AllReady(NewClients(|ids|))
    ensures var r := DispatchedAll(NewClients(|ids|), ids, queue);
            r.Some? && Following(r.value, RoomAfterRun(StartedRoom(seated, kind, now), ids, run))
  {
    hide DispatchedAll, RunPackets, RoomAfterRun, FitsRoomRun, EncodedAll, Heard, StartPackets, SlotFollows, Distinct, FitsInt, Parse;
    var games := StartedRoom(seated, kind, now);
    var first := StartPackets(ids, seated, kind, next, |ids|);
    var rest := RunPackets(games, ids, run);
    StreamArrives(first + rest, queue, raised);
    StartDispatched(ids, seated, kind, next, now, |ids|);
    var clients := DispatchedAll(NewClients(|ids|), ids, AllWrapped(first)).value;
    assert Following(clients, games);
    RunFollows(clients, games, ids, run);
    WrappedAppend(first, rest);
    DispatchedAppend(NewClients(|ids|), ids, AllWrapped(first), AllWrapped(rest));
  }
}
