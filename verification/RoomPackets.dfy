/** From the packets of a tick to the bytes every member of the room is sent: per-player send
    buffers, and one batched broadcast instead of one send per player. */
module RoomPackets {
  import opened Packets
  import opened PacketBound
  import opened TickInvariant
  import opened TickSpec

  // ---------- What is broadcast ----------

  /** The older broadcast: one send for every player who has something to say. */
  function PerPlayer(offers: seq<seq<byte>>): seq<seq<byte>> {
    if offers == [] then []
    else (if offers[0] == [] then [] else [offers[0]]) + PerPlayer(offers[1..])
  }

  /** The batched broadcast, with `held` already gathered. */
  function Batched(held: seq<byte>, offers: seq<seq<byte>>): seq<seq<byte>>
    decreases |offers|
  {
    if offers == [] then (if held == [] then [] else [held])
    else if offers[0] == [] then Batched(held, offers[1..])
    else if |held| + |offers[0]| > BUF_SIZE then [held] + Batched(offers[0], offers[1..])
    else Batched(held + offers[0], offers[1..])
  }

  predicate Fit(offers: seq<seq<byte>>) {
    forall i :: 0 <= i < |offers| ==> |offers[i]| <= BUF_SIZE
  }

  lemma {:induction false} PerPlayerStream(offers: seq<seq<byte>>)
    ensures Flat(PerPlayer(offers)) == Flat(offers)
  {
    if offers != [] {
      PerPlayerStream(offers[1..]);
      FlatCons(offers[0], PerPlayer(offers[1..]));
      assert [] + PerPlayer(offers[1..]) == PerPlayer(offers[1..]);
    }
  }

  lemma {:induction false} BatchedStream(held: seq<byte>, offers: seq<seq<byte>>)
    ensures Flat(Batched(held, offers)) == held + Flat(offers)
    decreases |offers|
  {
    hide Flat;
    FlatCons(held, []);
    if offers == [] {
      assert [held] + [] == [held];
      return;
    }
    StreamCons(held, offers);
    if offers[0] == [] {
      BatchedStream(held, offers[1..]);
    } else if |held| + |offers[0]| > BUF_SIZE {
      BatchedStream(offers[0], offers[1..]);
      FlatCons(held, Batched(offers[0], offers[1..]));
    } else {
      BatchedStream(held + offers[0], offers[1..]);
    }
  }

  lemma StreamCons(held: seq<byte>, offers: seq<seq<byte>>)
    requires offers != []
    ensures held + Flat(offers) == held + offers[0] + Flat(offers[1..])
  {
  }

  /** Batching does not change the byte stream anyone receives. */
  lemma BatchingKeepsStream(offers: seq<seq<byte>>)
    ensures Flat(Batched([], offers)) == Flat(PerPlayer(offers))
  {
    BatchedStream([], offers);
    PerPlayerStream(offers);
  }

  /** The chunks are the offers put together in order, none of them cut in two. */
  predicate Regroups(chunks: seq<seq<byte>>, offers: seq<seq<byte>>)
    decreases |chunks|
  {
    if chunks == [] then Flat(offers) == []
    else exists n :: 0 <= n <= |offers| && chunks[0] == Flat(offers[..n]) && Regroups(chunks[1..], offers[n..])
  }

  lemma {:induction false} BatchedRegroups(offers: seq<seq<byte>>, n: nat)
    requires n <= |offers| && Fit(offers)
    ensures Regroups(Batched(Flat(offers[..n]), offers[n..]), offers)
    decreases |offers|, |offers| - n
  {
    var held := Flat(offers[..n]);
    if n == |offers| {
      assert offers[..n] == offers && offers[n..] == [];
      if held != [] {
        assert Batched(held, []) == [held] && [held][1..] == [];
        assert Regroups([], offers[n..]);
      }
    } else {
      assert offers[n..][0] == offers[n] && offers[n..][1..] == offers[n + 1..];
      assert offers[..n + 1] == offers[..n] + [offers[n]];
      FlatSnoc(offers[..n], offers[n]);
      if offers[n] == [] || |held| + |offers[n]| <= BUF_SIZE {
        assert offers[n] == [] ==> held + offers[n] == held;
        BatchedRegroups(offers, n + 1);
      } else {
        var rest := offers[n..];
        assert n > 0;
        assert rest[..1] == [offers[n]] && Flat([offers[n]]) == offers[n] + Flat([]);
        BatchedRegroups(rest, 1);
        assert Flat(rest[..1]) == offers[n];
        var chunks := Batched(held, offers[n..]);
        assert chunks[0] == held;
        assert chunks[1..] == Batched(offers[n], offers[n + 1..]);
        assert rest[1..] == offers[n + 1..];
      }
    }
  }

  /** No chunk is empty or larger than a send buffer, no player's buffer is split over two
      chunks, and no two neighbouring chunks would have fitted into one. */
  lemma BatchesAreWhole(offers: seq<seq<byte>>)
    requires Fit(offers)
    ensures Regroups(Batched([], offers), offers)
    ensures forall i :: 0 <= i < |Batched([], offers)| ==> 0 < |Batched([], offers)[i]| <= BUF_SIZE
    ensures forall i :: 0 < i < |Batched([], offers)| ==>
              |Batched([], offers)[i - 1]| + |Batched([], offers)[i]| > BUF_SIZE
  {
    assert offers[0..] == offers && Flat(offers[..0]) == [];
    BatchedRegroups(offers, 0);
    BatchedFits([], offers);
  }

  lemma {:induction false} BatchedFits(held: seq<byte>, offers: seq<seq<byte>>)
    requires Fit(offers) && |held| <= BUF_SIZE
    ensures var chunks := Batched(held, offers);
            && (forall i :: 0 <= i < |chunks| ==> 0 < |chunks[i]| <= BUF_SIZE)
            && (forall i :: 0 < i < |chunks| ==> |chunks[i - 1]| + |chunks[i]| > BUF_SIZE)
            && (held != [] ==> |chunks| > 0 && |chunks[0]| >= |held|)
    decreases |offers|
  {
    if offers != [] {
      if offers[0] == [] {
        BatchedFits(held, offers[1..]);
        assert Batched(held, offers) == Batched(held, offers[1..]);
      } else if |held| + |offers[0]| > BUF_SIZE {
        BatchedFits(offers[0], offers[1..]);
        var later := Batched(offers[0], offers[1..]);
        var chunks := Batched(held, offers);
        assert forall i :: 0 < i < |chunks| ==> chunks[i] == later[i - 1];
      } else {
        BatchedFits(held + offers[0], offers[1..]);
      }
    }
  }

  /** What fits into one buffer is sent at once. */
  lemma {:induction false} BatchedOnce(held: seq<byte>, offers: seq<seq<byte>>)
    requires |held| + |Flat(offers)| <= BUF_SIZE
    ensures Batched(held, offers) == if held + Flat(offers) == [] then [] else [held + Flat(offers)]
    decreases |offers|
  {
    if offers == [] {
      assert held + Flat(offers) == held;
    } else if offers[0] == [] {
      BatchedOnce(held, offers[1..]);
      assert Flat(offers) == [] + Flat(offers[1..]) == Flat(offers[1..]);
    } else {
      BatchedOnce(held + offers[0], offers[1..]);
      assert held + offers[0] + Flat(offers[1..]) == held + Flat(offers);
    }
  }

  // ---------- Players ----------

  method CopyInto(target: array<byte>, at: nat, source: seq<byte>)
    requires at + |source| <= target.Length
    modifies target
    ensures target[..at + |source|] == old(target[..at]) + source
    ensures target[at + |source|..] == old(target[at + |source|..])
  {
    for i := 0 to |source|
      invariant target[..at + i] == old(target[..at]) + source[..i]
      invariant target[at + i..] == old(target[at + i..])
    {
      target[at + i] := source[i];
      assert target[..at + i + 1] == target[..at + i] + [source[i]];
      assert target[at + i + 1..] == old(target[at + i..])[1..];
    }
  }

  /** A room slot, as far as sending is concerned. `connected` says that the slot's session
      can be found. */
  class Player {
    const buffer: array<byte>
    var size: nat
    var connected: bool
    var playing: bool
    ghost var contents: seq<byte>

    ghost predicate Valid()
      reads this, buffer
    {
      buffer.Length == BUF_SIZE && size == |contents| <= BUF_SIZE && buffer[..size] == contents
    }

    constructor (connected: bool)
      ensures Valid() && fresh(buffer) && contents == [] && !playing && this.connected == connected
    {
      buffer := new byte[BUF_SIZE](_ => 0);
      size := 0;
      contents := [];
      this.connected := connected;
      playing := false;
    }

    method AddToSendBuffer(data: seq<byte>) returns (ok: bool)
      requires Valid()
      modifies this`size, this`contents, buffer
      ensures Valid()
      ensures ok <==> |old(contents)| + |data| <= BUF_SIZE
      ensures contents == if ok then old(contents) + data else old(contents)
    {
      if |data| <= 0 {
        assert contents + data == contents;
        return true;
      }
      var need := size + |data|;
      if need > BUF_SIZE {
        return false;
      }
      CopyInto(buffer, size, data);
      size := need;
      contents := contents + data;
      return true;
    }

    method ClearSendBuffer()
      requires Valid()
      modifies this`size, this`contents, buffer
      ensures Valid() && contents == []
    {
      size := 0;
      contents := [];
      for i := 0 to buffer.Length
        invariant Valid() && contents == []
      {
        buffer[i] := 0;
      }
    }

    /** One packet. A game-over packet puts the player out, whether or not it fits. */
    method AppendTask(packet: Packet) returns (ok: bool)
      requires Valid()
      modifies this`size, this`contents, this`playing, buffer
      ensures Valid()
      ensures ok <==> |old(contents)| + |Encoded(packet)| <= BUF_SIZE
      ensures contents == if ok then old(contents) + Encoded(packet) else old(contents)
      ensures playing <==> old(playing) && !packet.GameOverPacket?
    {
      if packet.GameOverPacket? {
        playing := false;
      }
      ok := AddToSendBuffer(Encoded(packet));
    }

    /** Appends the tick's packets in order until one does not fit. */
    method AppendTasks(packets: seq<Packet>) returns (ok: bool)
      requires Valid()
      modifies this`size, this`contents, this`playing, buffer
      ensures Valid()
      ensures TookIn(old(contents), old(playing), packets, ok, contents, playing)
    {
      hide TookFirst, TookIn, EncodedAll, Encoded;
      NothingTaken(contents, playing, packets);
      for i := 0 to |packets|
        invariant Valid()
        invariant TookFirst(old(contents), old(playing), packets, i, contents, playing)
      {
        ghost var before, wasPlaying := contents, playing;
        ok := AppendTask(packets[i]);
        TakeNext(old(contents), old(playing), packets, i, before, wasPlaying, ok, contents, playing);
        if !ok {
          return;
        }
      }
      AllTaken(old(contents), old(playing), packets, contents, playing);
      return true;
    }

    predicate InGame()
      reads this
    {
      connected && playing
    }

    /** Only a connected player who is still in the game gets packets. */
    method AppendTick(packets: seq<Packet>) returns (ok: bool)
      requires Valid()
      modifies this`size, this`contents, this`playing, buffer
      ensures Valid()
      ensures Built(old(InGame()), old(contents), old(playing), packets, ok, contents, playing)
    {
      ok := true;
      if playing && connected {
        ok := AppendTasks(packets);
      }
    }
  }

  predicate EndsGame(packets: seq<Packet>) {
    exists i :: 0 <= i < |packets| && packets[i].GameOverPacket?
  }

  /** The first `m` packets are in the buffer. */
  predicate TookFirst(before: seq<byte>, wasPlaying: bool, packets: seq<Packet>, m: nat, after: seq<byte>, playing: bool)
    requires m <= |packets|
  {
    after == before + EncodedAll(packets[..m]) && (playing <==> wasPlaying && !EndsGame(packets[..m]))
  }

  /** What building a player's packets does: everything goes in if it fits; otherwise the
      packets in front of the first one that does not. */
  ghost predicate TookIn(before: seq<byte>, wasPlaying: bool, packets: seq<Packet>, ok: bool, after: seq<byte>, playing: bool) {
    && (ok <==> |before| + |EncodedAll(packets)| <= BUF_SIZE)
    && (if ok then after == before + EncodedAll(packets) && (playing <==> wasPlaying && !EndsGame(packets))
        else exists m :: 0 <= m < |packets| && after == before + EncodedAll(packets[..m]) &&
                         |after| + |Encoded(packets[m])| > BUF_SIZE && (playing <==> wasPlaying && !EndsGame(packets[..m + 1])))
  }

  /** The same for a slot that may be out of the game, which is left alone. */
  ghost predicate Built(inGame: bool, before: seq<byte>, wasPlaying: bool, packets: seq<Packet>, ok: bool, after: seq<byte>, playing: bool) {
    if inGame then TookIn(before, true, packets, ok, after, playing)
    else ok && after == before && playing == wasPlaying
  }

  lemma NothingTaken(contents: seq<byte>, playing: bool, packets: seq<Packet>)
    ensures TookFirst(contents, playing, packets, 0, contents, playing)
  {
    assert packets[..0] == [];
  }

  lemma AllTaken(before: seq<byte>, wasPlaying: bool, packets: seq<Packet>, after: seq<byte>, playing: bool)
    requires TookFirst(before, wasPlaying, packets, |packets|, after, playing) && |after| <= BUF_SIZE
    ensures TookIn(before, wasPlaying, packets, true, after, playing)
  {
    assert packets[..|packets|] == packets;
  }

  lemma TakeNext(before: seq<byte>, first: bool, packets: seq<Packet>, i: nat, contents: seq<byte>, playing: bool,
                 ok: bool, contents': seq<byte>, playing': bool)
    requires i < |packets| && TookFirst(before, first, packets, i, contents, playing)
    requires ok <==> |contents| + |Encoded(packets[i])| <= BUF_SIZE
    requires contents' == if ok then contents + Encoded(packets[i]) else contents
    requires playing' <==> playing && !packets[i].GameOverPacket?
    ensures if ok then TookFirst(before, first, packets, i + 1, contents', playing')
            else TookIn(before, first, packets, false, contents', playing')
  {
    hide Encoded, EncodedAll, EndsGame;
    EncodedStep(packets, i);
    EndsGameStep(packets, i);
    EncodedPrefix(packets, i + 1);
  }

  lemma EncodedStep(packets: seq<Packet>, i: nat)
    requires i < |packets|
    ensures EncodedAll(packets[..i + 1]) == EncodedAll(packets[..i]) + Encoded(packets[i])
  {
    assert packets[..i + 1][..i] == packets[..i];
  }

  lemma EndsGameStep(packets: seq<Packet>, i: nat)
    requires i < |packets|
    ensures EndsGame(packets[..i + 1]) <==> EndsGame(packets[..i]) || packets[i].GameOverPacket?
  {
    var longer, shorter := packets[..i + 1], packets[..i];
    assert forall k :: 0 <= k < i ==> shorter[k] == longer[k];
    assert longer[i] == packets[i];
  }

  lemma {:induction false} EncodedPrefix(packets: seq<Packet>, n: nat)
    requires n <= |packets|
    ensures |EncodedAll(packets[..n])| <= |EncodedAll(packets)|
  {
    if n == |packets| {
      assert packets[..n] == packets;
    } else {
      var init := packets[..|packets| - 1];
      assert init[..n] == packets[..n];
      EncodedPrefix(init, n);
    }
  }

  // ---------- The room ----------

  ghost predicate IsRoom(players: seq<Player>)
    reads players, set p | p in players :: p.buffer
  {
    && (forall i :: 0 <= i < |players| ==> players[i].Valid())
    && (forall i, j :: 0 <= i < j < |players| ==>
          players[i] != players[j] && players[i].buffer != players[j].buffer)
  }

  /** What each slot has to say; a slot without a session says nothing. */
  ghost function Offers(players: seq<Player>): (offers: seq<seq<byte>>)
    reads players`contents, players`connected
    ensures |offers| == |players|
    ensures forall i :: 0 <= i < |players| ==>
              offers[i] == if players[i].connected then players[i].contents else []
  {
    if players == [] then []
    else [if players[0].connected then players[0].contents else []] + Offers(players[1..])
  }

  /** Every connected target has been sent exactly the chunks `done`. */
  predicate SentToAll(players: seq<Player>, sent: seq<seq<seq<byte>>>, done: seq<seq<byte>>)
    reads players`connected
  {
    && |sent| == |players|
    && forall j :: 0 <= j < |players| ==> sent[j] == if players[j].connected then done else []
  }

  lemma NothingSent(players: seq<Player>, sent: seq<seq<seq<byte>>>)
    requires |sent| == |players| && forall j :: 0 <= j < |players| ==> sent[j] == []
    ensures SentToAll(players, sent, [])
  {
  }

  /** One more send to every slot that has a session. */
  method SendToAll(players: seq<Player>, sent: seq<seq<seq<byte>>>, data: seq<byte>, ghost done: seq<seq<byte>>)
    returns (sent': seq<seq<seq<byte>>>)
    requires 0 < |data| <= BUF_SIZE && SentToAll(players, sent, done)
    ensures SentToAll(players, sent', done + [data])
  {
    sent' := sent;
    for j := 0 to |players|
      invariant |sent'| == |players|
      invariant forall k :: 0 <= k < |players| ==>
                  sent'[k] == if !players[k].connected then [] else if k < j then done + [data] else done
    {
      if players[j].connected {
        sent' := sent'[j := sent'[j] + [data]];
      }
    }
  }

  lemma SlotIsValid(players: seq<Player>, i: nat)
    requires IsRoom(players) && i < |players|
    ensures players[i].Valid()
  {
  }

  method ClearSendBuffers(players: seq<Player>)
    requires IsRoom(players)
    modifies players`size, players`contents, set p | p in players :: p.buffer
    ensures IsRoom(players)
    ensures forall i :: 0 <= i < |players| ==>
              players[i].contents == if players[i].connected then [] else old(players[i].contents)
  {
    for i := 0 to |players|
      invariant IsRoom(players)
      invariant forall k :: 0 <= k < i ==>
                  players[k].contents == if players[k].connected then [] else old(players[k].contents)
      invariant forall k :: i <= k < |players| ==> players[k].contents == old(players[k].contents)
    {
      if players[i].connected {
        players[i].ClearSendBuffer();
      }
    }
  }

  /** The chunks sent so far and what is held are the batches of the first `i` slots. */
  ghost predicate BatchedSoFar(done: seq<seq<byte>>, held: seq<byte>, offers: seq<seq<byte>>, i: nat) {
    |held| <= BUF_SIZE && i <= |offers| && done + Batched(held, offers[i..]) == Batched([], offers)
  }

  lemma BatchedStep(done: seq<seq<byte>>, held: seq<byte>, offers: seq<seq<byte>>, i: nat)
    requires i < |offers| && |offers[i]| <= BUF_SIZE && BatchedSoFar(done, held, offers, i)
    ensures if offers[i] == [] then BatchedSoFar(done, held, offers, i + 1)
            else if |held| + |offers[i]| > BUF_SIZE then held != [] && BatchedSoFar(done + [held], [] + offers[i], offers, i + 1)
            else BatchedSoFar(done, held + offers[i], offers, i + 1)
  {
    assert offers[i..][0] == offers[i] && offers[i..][1..] == offers[i + 1..];
    var later := Batched(offers[i], offers[i + 1..]);
    assert done + ([held] + later) == done + [held] + later;
    assert [] + offers[i] == offers[i];
  }

  lemma BatchedEnd(done: seq<seq<byte>>, held: seq<byte>, offers: seq<seq<byte>>)
    requires BatchedSoFar(done, held, offers, |offers|)
    ensures Batched([], offers) == done + if held == [] then [] else [held]
  {
    assert offers[|offers|..] == [];
  }

  lemma BatchedStart(offers: seq<seq<byte>>)
    ensures BatchedSoFar([], [], offers, 0)
  {
    assert offers[0..] == offers;
  }

  /** Gathers the players' buffers into one send buffer, which goes out to every connected
      slot whenever the next player's bytes would no longer fit, and at the end. Returns the
      sends made to each slot. */
  method SendBatches(players: seq<Player>) returns (sent: seq<seq<seq<byte>>>)
    requires IsRoom(players)
    ensures SentToAll(players, sent, Batched([], Offers(players)))
  {
    hide Batched, SentToAll, BatchedSoFar, IsRoom, Offers;
    var sendBuffer := new byte[BUF_SIZE];
    var sendSize: nat := 0;
    sent := seq(|players|, _ => []);
    ghost var offers := Offers(players);
    ghost var done: seq<seq<byte>> := [];
    BatchedStart(offers);
    NothingSent(players, sent);
    assert sendBuffer[..sendSize] == [];
    for i := 0 to |players|
      invariant sendSize <= BUF_SIZE == sendBuffer.Length
      invariant SentToAll(players, sent, done)
      invariant BatchedSoFar(done, sendBuffer[..sendSize], offers, i)
    {
      var source := players[i];
      SlotIsValid(players, i);
      BatchedStep(done, sendBuffer[..sendSize], offers, i);
      if source.connected && source.size > 0 {
        if sendSize + source.size > BUF_SIZE {
          sent := SendToAll(players, sent, sendBuffer[..sendSize], done);
          done := done + [sendBuffer[..sendSize]];
          sendSize := 0;
        }
        CopyInto(sendBuffer, sendSize, source.buffer[..source.size]);
        sendSize := sendSize + source.size;
      }
    }
    BatchedEnd(done, sendBuffer[..sendSize], offers);
    if sendSize > 0 {
      sent := SendToAll(players, sent, sendBuffer[..sendSize], done);
    } else {
      assert done + [] == done;
    }
  }

  /** Every connected slot is sent the same batches, and the buffers they came from are empty
      afterwards. */
  method BroadcastPackets(players: seq<Player>) returns (sent: seq<seq<seq<byte>>>)
    requires IsRoom(players)
    modifies players`size, players`contents, set p | p in players :: p.buffer
    ensures IsRoom(players)
    ensures SentToAll(players, sent, old(Batched([], Offers(players))))
    ensures forall i :: 0 <= i < |players| ==>
              players[i].contents == if players[i].connected then [] else old(players[i].contents)
  {
    hide Batched, Offers, IsRoom, SentToAll;
    sent := SendBatches(players);
    ClearSendBuffers(players);
  }

  /** One slot's part of the loop below: no other slot is touched. */
  method AppendAt(players: seq<Player>, i: nat, packets: seq<Packet>) returns (ok: bool)
    requires IsRoom(players) && i < |players|
    modifies players`size, players`contents, players`playing, players[i].buffer
    ensures IsRoom(players)
    ensures Built(old(players[i].InGame()), old(players[i].contents), old(players[i].playing), packets, ok, players[i].contents, players[i].playing)
    ensures forall k :: 0 <= k < |players| && k != i ==>
              players[k].contents == old(players[k].contents) && players[k].playing == old(players[k].playing)
  {
    hide Built;
    ok := players[i].AppendTick(packets);
  }

  /** Builds the tick's packets of every player who is in the game. Returns the slot whose
      buffer overflowed, or -1; slots behind a failing one are not reached. */
  method AppendTickPackets(players: seq<Player>, packets: seq<seq<Packet>>) returns (failed: int)
    requires IsRoom(players) && |packets| == |players|
    modifies players`size, players`contents, players`playing, set p | p in players :: p.buffer
    ensures IsRoom(players)
    ensures -1 <= failed < |players|
    ensures forall i :: 0 <= i < |players| && (failed == -1 || i < failed) ==>
              Built(old(players[i].InGame()), old(players[i].contents), old(players[i].playing), packets[i],
                    true, players[i].contents, players[i].playing)
    ensures failed >= 0 ==>
              Built(old(players[failed].InGame()), old(players[failed].contents), old(players[failed].playing), packets[failed],
                    false, players[failed].contents, players[failed].playing)
    ensures failed >= 0 ==> forall i :: failed < i < |players| ==>
              players[i].contents == old(players[i].contents) && players[i].playing == old(players[i].playing)
  {
    hide Built, IsRoom;
    for i := 0 to |players|
      invariant IsRoom(players)
      invariant forall k :: 0 <= k < i ==>
                  Built(old(players[k].InGame()), old(players[k].contents), old(players[k].playing), packets[k],
                        true, players[k].contents, players[k].playing)
      invariant forall k :: i <= k < |players| ==>
                  players[k].contents == old(players[k].contents) && players[k].playing == old(players[k].playing)
    {
      var ok := AppendAt(players, i, packets[i]);
      if !ok {
        return i;
      }
    }
    return -1;
  }

  // ---------- Garbage ----------

  /** How many garbage lines a number of cleared rows is worth. */
  function GarbageLines(cleared: nat): (n: nat)
    ensures n == (if cleared <= 4 then [0, 0, 1, 2, 4][cleared] else 0) && n <= 4
  {
    if cleared == 2 then 1 else if cleared == 3 then 2 else if cleared == 4 then 4 else 0
  }

  /** The lines player `j` receives from the players in front of `n`. */
  function Attacks(cleared: seq<nat>, inPlay: seq<bool>, j: nat, n: nat): nat
    requires |cleared| == |inPlay| && j < |cleared| && n <= |cleared|
  {
    if n == 0 then 0
    else Attacks(cleared, inPlay, j, n - 1) +
         if inPlay[n - 1] && inPlay[j] && n - 1 != j then GarbageLines(cleared[n - 1]) else 0
  }

  /** The lines that all players in the game send together. */
  function TotalLines(cleared: seq<nat>, inPlay: seq<bool>): nat
    requires |cleared| == |inPlay|
  {
    if cleared == [] then 0
    else (if inPlay[0] then GarbageLines(cleared[0]) else 0) + TotalLines(cleared[1..], inPlay[1..])
  }

  lemma {:induction false} TotalLinesLast(cleared: seq<nat>, inPlay: seq<bool>, n: nat)
    requires |cleared| == |inPlay| && n < |cleared|
    ensures TotalLines(cleared[..n + 1], inPlay[..n + 1]) ==
              TotalLines(cleared[..n], inPlay[..n]) + if inPlay[n] then GarbageLines(cleared[n]) else 0
  {
    if n == 0 {
      assert cleared[..1][1..] == [] && cleared[..0] == [];
    } else {
      assert cleared[..n + 1][1..] == cleared[1..][..n] && inPlay[..n + 1][1..] == inPlay[1..][..n];
      assert cleared[..n][1..] == cleared[1..][..n - 1] && inPlay[..n][1..] == inPlay[1..][..n - 1];
      TotalLinesLast(cleared[1..], inPlay[1..], n - 1);
    }
  }

  lemma {:induction false} AttacksOfPrefix(cleared: seq<nat>, inPlay: seq<bool>, j: nat, n: nat)
    requires |cleared| == |inPlay| && j < |cleared| && inPlay[j] && n <= |cleared|
    ensures Attacks(cleared, inPlay, j, n) + (if j < n then GarbageLines(cleared[j]) else 0) == TotalLines(cleared[..n], inPlay[..n])
  {
    if n > 0 {
      AttacksOfPrefix(cleared, inPlay, j, n - 1);
      TotalLinesLast(cleared, inPlay, n - 1);
    }
  }

  /** A player in the game receives what all players in the game send, except their own lines. */
  lemma EverybodyElsesLines(cleared: seq<nat>, inPlay: seq<bool>, j: nat)
    requires |cleared| == |inPlay| && j < |cleared| && inPlay[j]
    ensures Attacks(cleared, inPlay, j, |cleared|) + GarbageLines(cleared[j]) == TotalLines(cleared, inPlay)
  {
    AttacksOfPrefix(cleared, inPlay, j, |cleared|);
    assert cleared[..|cleared|] == cleared && inPlay[..|cleared|] == inPlay;
  }

  /** Every player in the game sends its lines to every other one. */
  method DistributeGarbageLines(cleared: seq<nat>, inPlay: seq<bool>, pending: array<nat>)
    requires |cleared| == |inPlay| == pending.Length
    modifies pending
    ensures forall j :: 0 <= j < pending.Length ==>
              pending[j] == old(pending[j]) + Attacks(cleared, inPlay, j, |cleared|)
    ensures forall j :: 0 <= j < pending.Length && inPlay[j] ==>
              pending[j] + GarbageLines(cleared[j]) == old(pending[j]) + TotalLines(cleared, inPlay)
    ensures forall j :: 0 <= j < pending.Length && !inPlay[j] ==> pending[j] == old(pending[j])
  {
    for i := 0 to |cleared|
      invariant forall j :: 0 <= j < pending.Length ==> pending[j] == old(pending[j]) + Attacks(cleared, inPlay, j, i)
    {
      if inPlay[i] {
        var lines := GarbageLines(cleared[i]);
        if lines > 0 {
          for j := 0 to pending.Length
            invariant forall k :: 0 <= k < j ==> pending[k] == old(pending[k]) + Attacks(cleared, inPlay, k, i + 1)
            invariant forall k :: j <= k < pending.Length ==> pending[k] == old(pending[k]) + Attacks(cleared, inPlay, k, i)
          {
            if inPlay[j] && i != j {
              pending[j] := pending[j] + lines;
            }
          }
        }
      }
    }
    forall j | 0 <= j < pending.Length
      ensures inPlay[j] ==> pending[j] + GarbageLines(cleared[j]) == old(pending[j]) + TotalLines(cleared, inPlay)
      ensures !inPlay[j] ==> pending[j] == old(pending[j])
    {
      if inPlay[j] {
        EverybodyElsesLines(cleared, inPlay, j);
      } else {
        AttacksBound(cleared, inPlay, j, |cleared|);
      }
    }
  }

  /** At most four lines from everyone else. */
  lemma {:induction false} AttacksBound(cleared: seq<nat>, inPlay: seq<bool>, j: nat, n: nat)
    requires |cleared| == |inPlay| && j < |cleared| && n <= |cleared|
    ensures Attacks(cleared, inPlay, j, n) <= 4 * (if n > j then n - 1 else n)
    ensures !inPlay[j] ==> Attacks(cleared, inPlay, j, n) == 0
  {
    if n > 0 {
      AttacksBound(cleared, inPlay, j, n - 1);
    }
  }

  // ---------- A whole tick ----------

  lemma {:induction false} FlatBound(offers: seq<seq<byte>>, most: nat)
    requires forall i :: 0 <= i < |offers| ==> |offers[i]| <= most
    ensures |Flat(offers)| <= most * |offers|
  {
    if offers != [] {
      FlatBound(offers[1..], most);
    }
  }

  /** The bytes of a tick, slot by slot. */
  ghost function TickOffers(players: seq<Player>, packets: seq<seq<Packet>>): (offers: seq<seq<byte>>)
    requires |packets| == |players|
    reads players
    ensures |offers| == |players|
    ensures forall i :: 0 <= i < |players| ==>
              offers[i] == if players[i].InGame() then EncodedAll(packets[i]) else []
  {
    if players == [] then []
    else [if players[0].InGame() then EncodedAll(packets[0]) else []] + TickOffers(players[1..], packets[1..])
  }

  predicate Within(packets: seq<seq<Packet>>, most: nat) {
    forall i :: 0 <= i < |packets| ==> |EncodedAll(packets[i])| <= most
  }

  /** A buffer that fits leaves no room for a failure. */
  lemma FittingNeverFails(inGame: bool, wasPlaying: bool, packets: seq<Packet>, ok: bool, after: seq<byte>, playing: bool)
    requires |EncodedAll(packets)| <= 375 && (inGame ==> wasPlaying)
    ensures Built(inGame, [], wasPlaying, packets, ok, after, playing) ==>
              ok && after == (if inGame then EncodedAll(packets) else []) &&
              playing == (wasPlaying && !(inGame && EndsGame(packets)))
  {
    hide EncodedAll, EndsGame;
    assert [] + EncodedAll(packets) == EncodedAll(packets);
  }

  method BuildTick(players: seq<Player>, packets: seq<seq<Packet>>) returns (failed: int)
    requires IsRoom(players) && |packets| == |players| && Within(packets, 375)
    requires forall i :: 0 <= i < |players| ==> players[i].contents == []
    modifies players`size, players`contents, players`playing, set p | p in players :: p.buffer
    ensures IsRoom(players) && failed == -1
    ensures forall i :: 0 <= i < |players| ==>
              players[i].contents == (if old(players[i].InGame()) then EncodedAll(packets[i]) else []) &&
              players[i].playing == (old(players[i].playing) && !(players[i].connected && EndsGame(packets[i])))
  {
    hide EncodedAll, EndsGame, Built, IsRoom;
    failed := AppendTickPackets(players, packets);
    forall i, ok | 0 <= i < |players|
      ensures Built(old(players[i].InGame()), [], old(players[i].playing), packets[i], ok, players[i].contents, players[i].playing) ==>
                && ok
                && players[i].contents == (if old(players[i].InGame()) then EncodedAll(packets[i]) else [])
                && players[i].playing == (old(players[i].playing) && !(players[i].connected && EndsGame(packets[i])))
    {
      FittingNeverFails(old(players[i].InGame()), old(players[i].playing), packets[i], ok, players[i].contents, players[i].playing);
    }
  }

  /** What fits into one buffer goes out in one send. */
  lemma OneSend(offers: seq<seq<byte>>)
    requires |offers| <= MAX_ROOM_PLAYERS && forall i :: 0 <= i < |offers| ==> |offers[i]| <= 375
    ensures Batched([], offers) == if Flat(offers) == [] then [] else [Flat(offers)]
  {
    FlatBound(offers, 375);
    assert [] + Flat(offers) == Flat(offers);
    BatchedOnce([], offers);
  }

  /** When no player's tick is larger than the bound proved for it, building packets never
      fails, and every connected slot is sent the whole tick in a single send. */
  method SendTick(players: seq<Player>, packets: seq<seq<Packet>>) returns (sent: seq<seq<seq<byte>>>)
    requires IsRoom(players) && |packets| == |players| <= MAX_ROOM_PLAYERS && Within(packets, 375)
    requires forall i :: 0 <= i < |players| ==> players[i].contents == []
    modifies players`size, players`contents, players`playing, set p | p in players :: p.buffer
    ensures IsRoom(players)
    ensures var stream := old(Flat(TickOffers(players, packets)));
            SentToAll(players, sent, if stream == [] then [] else [stream])
    ensures forall i :: 0 <= i < |players| ==> players[i].contents == []
    ensures forall i :: 0 <= i < |players| ==>
              players[i].playing == (old(players[i].playing) && !(players[i].connected && EndsGame(packets[i])))
  {
    hide EncodedAll, EndsGame, Flat, Batched, IsRoom, SentToAll, Offers, TickOffers;
    ghost var ticked := TickOffers(players, packets);
    var failed := BuildTick(players, packets);
    assert Offers(players) == ticked;
    OneSend(ticked);
    sent := BroadcastPackets(players);
  }

  /** In every tick of a room the bound holds, whatever the players do and however the lines
      they clear are handed round. */
  lemma RoomTickFits(states: seq<State>, playing: seq<bool>, inputs: seq<TickInput>, cleared: seq<nat>, j: nat, id: int)
    requires |states| == |playing| == |inputs| == |cleared| <= MAX_ROOM_PLAYERS && j < |states|
    requires playing[j] && Playable(states[j]) && FitsInput(states[j], inputs[j]) && !inputs[j].single
    requires inputs[j].attacks == Attacks(cleared, playing, j, |cleared|)
    ensures |inputs[j].holes| <= MAX_GARBAGE_LINES
    ensures |EncodedAll(TaskPackets(Played(states[j], inputs[j]).tasks, id, inputs[j]))| <= 375
  {
    AttacksBound(cleared, playing, j, |cleared|);
    TickBytes(states[j], inputs[j], id);
  }
}
