/** How a byte stream is cut into packets: the server's bounded receive buffer, the client's
    unbounded one, and why it does not matter how the stream arrives. */
module Framing {
  import opened Packets

  /** No size field can exceed this, so it stands for the absence of a limit. */
  const UNBOUNDED: nat := 65535

  function SizeOf(bytes: seq<byte>): (n: nat)
    requires |bytes| >= 2
    ensures n <= UNBOUNDED
  {
    bytes[0] as int + 256 * bytes[1] as int
  }

  /** The frames found, what is left behind them, and whether an impossible size field stops
      the stream. */
  datatype Parsed = Parsed(frames: seq<seq<byte>>, rest: seq<byte>, bad: bool)

  function Parse(bytes: seq<byte>, limit: nat): Parsed {
    if |bytes| < PACKET_HEADER_SIZE then Parsed([], bytes, false)
    else
      var size := SizeOf(bytes);
      if size < PACKET_HEADER_SIZE || size > limit then Parsed([], bytes, true)
      else if |bytes| < size then Parsed([], bytes, false)
      else
        var p := Parse(bytes[size..], limit);
        p.(frames := [bytes[..size]] + p.frames)
  }

  predicate IsFrame(frame: seq<byte>, limit: nat) {
    PACKET_HEADER_SIZE <= |frame| <= limit && |frame| == SizeOf(frame)
  }

  predicate AreFrames(frames: seq<seq<byte>>, limit: nat) {
    forall i :: 0 <= i < |frames| ==> IsFrame(frames[i], limit)
  }

  // ---------- What a parse means ----------

  /** A first frame is found whatever follows it. */
  lemma ParseFrame(frame: seq<byte>, more: seq<byte>, limit: nat)
    requires IsFrame(frame, limit)
    ensures var p := Parse(more, limit);
            Parse(frame + more, limit) == p.(frames := [frame] + p.frames)
  {
    var bytes := frame + more;
    assert SizeOf(bytes) == SizeOf(frame);
    assert bytes[..|frame|] == frame && bytes[|frame|..] == more;
  }

  /** Whether the stream begins with a complete frame. */
  predicate StartsWithFrame(bytes: seq<byte>, limit: nat) {
    |bytes| >= PACKET_HEADER_SIZE && PACKET_HEADER_SIZE <= SizeOf(bytes) <= limit && |bytes| >= SizeOf(bytes)
  }

  lemma FirstFrame(bytes: seq<byte>, limit: nat)
    requires StartsWithFrame(bytes, limit)
    ensures var size := SizeOf(bytes);
            IsFrame(bytes[..size], limit) && bytes == bytes[..size] + bytes[size..]
  {
  }

  lemma NoFirstFrame(bytes: seq<byte>, limit: nat)
    requires !StartsWithFrame(bytes, limit)
    ensures var p := Parse(bytes, limit);
            && p.frames == [] && p.rest == bytes
            && (p.bad <==> |bytes| >= PACKET_HEADER_SIZE && !(PACKET_HEADER_SIZE <= SizeOf(bytes) <= limit))
  {
  }

  /** Nothing is lost or invented, every frame is well formed, and what is left over is less
      than one frame. */
  lemma {:induction false} ParseIsExact(bytes: seq<byte>, limit: nat)
    ensures var p := Parse(bytes, limit);
            && Flat(p.frames) + p.rest == bytes
            && AreFrames(p.frames, limit)
            && (!p.bad && limit >= PACKET_HEADER_SIZE ==> |p.rest| < limit)
  {
    hide Parse, SizeOf, Flat;
    if StartsWithFrame(bytes, limit) {
      var size := SizeOf(bytes);
      FirstFrame(bytes, limit);
      ParseIsExact(bytes[size..], limit);
      ParseFrame(bytes[..size], bytes[size..], limit);
      FlatCons(bytes[..size], Parse(bytes[size..], limit).frames);
    } else {
      NoFirstFrame(bytes, limit);
      FlatCons([], []);
    }
  }

  /** Bytes that arrive later never change what was already found, and are read as if the
      leftover and they were one stream. */
  predicate Appends(bytes: seq<byte>, more: seq<byte>, limit: nat) {
    var p := Parse(bytes, limit);
    var q := Parse(p.rest + more, limit);
    Parse(bytes + more, limit) == if p.bad then p.(rest := p.rest + more) else q.(frames := p.frames + q.frames)
  }

  lemma {:induction false} ParseAppend(bytes: seq<byte>, more: seq<byte>, limit: nat)
    ensures Appends(bytes, more, limit)
  {
    hide Parse, SizeOf, Appends;
    if StartsWithFrame(bytes, limit) {
      var size := SizeOf(bytes);
      FirstFrame(bytes, limit);
      ParseAppend(bytes[size..], more, limit);
      AppendFrame(bytes[..size], bytes[size..], more, limit);
    } else {
      AppendNothing(bytes, more, limit);
    }
  }

  lemma AppendFrame(frame: seq<byte>, tail: seq<byte>, more: seq<byte>, limit: nat)
    requires IsFrame(frame, limit) && Appends(tail, more, limit)
    ensures Appends(frame + tail, more, limit)
  {
    hide Parse, SizeOf;
    ParseFrame(frame, tail, limit);
    assert frame + tail + more == frame + (tail + more);
    ParseFrame(frame, tail + more, limit);
    var p := Parse(tail, limit);
    var q := Parse(p.rest + more, limit);
    assert [frame] + (p.frames + q.frames) == [frame] + p.frames + q.frames;
  }

  lemma AppendNothing(bytes: seq<byte>, more: seq<byte>, limit: nat)
    requires !StartsWithFrame(bytes, limit)
    ensures Appends(bytes, more, limit)
  {
    hide Parse;
    NoFirstFrame(bytes, limit);
    var q := Parse(bytes + more, limit);
    assert [] + q.frames == q.frames;
    if |bytes| >= PACKET_HEADER_SIZE && !(PACKET_HEADER_SIZE <= SizeOf(bytes) <= limit) {
      assert SizeOf(bytes + more) == SizeOf(bytes);
      NoFirstFrame(bytes + more, limit);
    }
  }

  /** A stream of well-formed frames is found frame by frame, whatever follows it. */
  lemma {:induction false} ParseOfFrames(frames: seq<seq<byte>>, more: seq<byte>, limit: nat)
    requires AreFrames(frames, limit)
    ensures var p := Parse(more, limit);
            Parse(Flat(frames) + more, limit) == p.(frames := frames + p.frames)
  {
    if frames == [] {
      assert Flat(frames) + more == more && frames + Parse(more, limit).frames == Parse(more, limit).frames;
    } else {
      hide Parse, SizeOf;
      ParseOfFrames(frames[1..], more, limit);
      ParseFrame(frames[0], Flat(frames[1..]) + more, limit);
      assert Flat(frames) + more == frames[0] + (Flat(frames[1..]) + more);
      assert frames + Parse(more, limit).frames == [frames[0]] + (frames[1..] + Parse(more, limit).frames);
    }
  }

  // ---------- Any chunking ----------

  /** Reading chunk by chunk, keeping the leftover and stopping for good at a bad size. */
  function Fed(p: Parsed, chunks: seq<seq<byte>>, limit: nat): Parsed
    decreases |chunks|
  {
    if chunks == [] then p
    else if p.bad then Fed(p.(rest := p.rest + chunks[0]), chunks[1..], limit)
    else
      var q := Parse(p.rest + chunks[0], limit);
      Fed(q.(frames := p.frames + q.frames), chunks[1..], limit)
  }

  /** For every chunking the packets found are those of the whole stream read at once. */
  lemma {:induction false} AnyChunking(seen: seq<byte>, chunks: seq<seq<byte>>, limit: nat)
    ensures Fed(Parse(seen, limit), chunks, limit) == Parse(seen + Flat(chunks), limit)
    decreases |chunks|
  {
    hide Parse;
    if chunks == [] {
      assert seen + Flat(chunks) == seen;
    } else {
      ParseAppend(seen, chunks[0], limit);
      AnyChunking(seen + chunks[0], chunks[1..], limit);
      assert seen + chunks[0] + Flat(chunks[1..]) == seen + Flat(chunks);
    }
  }

  /** The server's bounded parser and the client's unbounded one find the same packets unless
      the server meets a size over its limit; up to there they still agree. */
  lemma {:induction false} LimitsAgree(bytes: seq<byte>, limit: nat)
    requires limit <= UNBOUNDED
    ensures var (p, q) := (Parse(bytes, limit), Parse(bytes, UNBOUNDED));
            && p.frames <= q.frames
            && (!p.bad ==> p == q)
            && (p.bad ==> |p.rest| >= PACKET_HEADER_SIZE &&
                          (SizeOf(p.rest) < PACKET_HEADER_SIZE || SizeOf(p.rest) > limit))
  {
    if |bytes| >= PACKET_HEADER_SIZE {
      var size := SizeOf(bytes);
      if PACKET_HEADER_SIZE <= size <= limit && |bytes| >= size {
        LimitsAgree(bytes[size..], limit);
      }
    }
  }

  // ---------- The server's receive buffer ----------

  /** The receiving side of a session. `tasks` is the queue the packets go to, and `closing`
      says that a disconnect has been asked for. */
  class Receiver {
    const buffer: array<byte>
    var remaining: nat
    var tasks: seq<seq<byte>>
    var closing: bool

    ghost predicate Valid()
      reads this
    {
      buffer.Length == BUF_SIZE && remaining <= BUF_SIZE
    }

    ghost function Leftover(): seq<byte>
      requires Valid()
      reads this, buffer
    {
      buffer[..remaining]
    }

    constructor ()
      ensures Valid() && fresh(buffer) && Leftover() == [] && tasks == [] && !closing
    {
      buffer := new byte[BUF_SIZE](_ => 0);
      remaining := 0;
      tasks := [];
      closing := false;
    }

    /** The completed receive: the transport has written behind the leftover. */
    method Arrive(data: seq<byte>)
      requires Valid() && remaining + |data| <= BUF_SIZE
      modifies buffer
      ensures buffer[..remaining + |data|] == old(Leftover()) + data
    {
      for i := 0 to |data|
        invariant buffer[..remaining + i] == old(Leftover()) + data[..i]
      {
        buffer[remaining + i] := data[i];
        assert buffer[..remaining + i + 1] == buffer[..remaining + i] + [data[i]];
      }
    }

    /** Moves the bytes behind `offset` to the front. */
    method DropFront(offset: nat)
      requires Valid() && offset <= remaining
      modifies this`remaining, buffer
      ensures Valid() && remaining == old(remaining) - offset
      ensures Leftover() == old(buffer[offset..remaining])
    {
      remaining := remaining - offset;
      for i := 0 to remaining
        invariant buffer[..i] == old(buffer[offset..offset + i])
        invariant forall k :: i <= k < BUF_SIZE ==> buffer[k] == old(buffer[k])
        invariant remaining == old(remaining) - offset
      {
        buffer[i] := buffer[offset + i];
      }
    }

    /** Cuts the `recvBytes` new bytes and the leftover into packets. `room` is how many more
        tasks the session accepts before it turns them away. */
    method ProcessRecvBuffer(recvBytes: int, room: nat) returns (shouldReceive: bool)
      requires Valid()
      modifies this`remaining, this`tasks, this`closing, buffer
      ensures Valid()
      ensures recvBytes < 0 || old(remaining) + recvBytes > BUF_SIZE ==>
                !shouldReceive && closing && tasks == old(tasks) && Leftover() == old(Leftover())
      ensures 0 <= recvBytes && old(remaining) + recvBytes <= BUF_SIZE ==>
                Cut(old(buffer[..remaining + recvBytes]), room, old(tasks), old(closing), tasks, closing, Leftover(), shouldReceive)
    {
      if recvBytes < 0 || recvBytes > BUF_SIZE - remaining {
        closing := true;
        return false;
      }
      remaining := remaining + recvBytes;
      var offset;
      offset, shouldReceive := EnqueuePackets(buffer[..remaining], room);
      assert old(buffer[..remaining + recvBytes])[offset..] == buffer[offset..remaining];
      DropFront(offset);
    }

    method EnqueuePackets(packets: seq<byte>, room: nat) returns (offset: nat, shouldReceive: bool)
      modifies this`tasks, this`closing
      ensures offset <= |packets|
      ensures Cut(packets, room, old(tasks), old(closing), tasks, closing, packets[offset..], shouldReceive)
    {
      hide Parse, SizeOf, Flat, CutSoFar, Cut;
      offset, shouldReceive := 0, true;
      var sent: nat := 0;
      var running := true;
      CutStarts(packets, room, tasks, closing);
      while running && |packets| - offset >= PACKET_HEADER_SIZE
        invariant offset <= |packets| && (running ==> shouldReceive)
        invariant CutSoFar(packets, offset, room, sent, old(tasks), old(closing), tasks, closing, running, shouldReceive)
        decreases running, |packets| - offset
      {
        var rest := packets[offset..];
        var size := SizeOf(rest);
        CutStep(packets, offset, room, sent, old(tasks), old(closing), tasks, closing);
        if size < PACKET_HEADER_SIZE || size > BUF_SIZE {
          closing := true;
          shouldReceive := false;
          running := false;
        } else if |rest| < size {
          running := false;
        } else if sent == room {
          shouldReceive := false;
          running := false;
        } else {
          tasks := tasks + [rest[..size]];
          sent := sent + 1;
          offset := offset + size;
        }
      }
      CutEnds(packets, offset, room, sent, old(tasks), old(closing), tasks, closing, running, shouldReceive);
    }

    /** A session's receives in order, each no larger than the free part of the buffer: the
        queue ends up with the packets of the whole stream. */
    method ReceiveAll(chunks: seq<seq<byte>>)
      requires Valid() && remaining == 0 && tasks == [] && !closing
      requires Fits(chunks)
      modifies this`remaining, this`tasks, this`closing, buffer
      ensures Valid()
      ensures Received(Flat(chunks), tasks, closing, Leftover())
    {
      hide Parse, Flat, Cut, Fits, Received;
      var i := 0;
      var receiving := true;
      assert chunks[..0] == [] && Leftover() == [];
      NothingReceived();
      while receiving && i < |chunks|
        invariant 0 <= i <= |chunks| && Valid()
        invariant receiving == !closing
        invariant Received(Flat(chunks[..i]), tasks, closing, Leftover())
        decreases |chunks| - i
      {
        ChunkFits(chunks, i, tasks, Leftover());
        ghost var leftover, before := Leftover(), tasks;
        Arrive(chunks[i]);
        receiving := ProcessRecvBuffer(|chunks[i]|, BUF_SIZE);
        ReceiveStep(chunks, i, before, leftover, tasks, closing, Leftover(), receiving);
        i := i + 1;
      }
      ReceiveEnds(chunks, i, tasks, closing, Leftover());
    }
  }

  /** Where the loop stands: what is behind `offset` is still to be parsed. */
  ghost predicate CutSoFar(packets: seq<byte>, offset: nat, room: nat, sent: nat, before: seq<seq<byte>>, wasClosing: bool,
                           tasks: seq<seq<byte>>, closing: bool, running: bool, shouldReceive: bool)
  {
    && offset <= |packets| && sent <= room
    && (var (p, q) := (Parse(packets, BUF_SIZE), Parse(packets[offset..], BUF_SIZE));
        && sent <= |p.frames|
        && p == Parsed(p.frames[..sent] + q.frames, q.rest, q.bad)
        && tasks == before + p.frames[..sent]
        && (if running then shouldReceive && closing == wasClosing
            else if q.frames != [] then sent == room && !shouldReceive && closing == wasClosing
            else shouldReceive == !q.bad && closing == (wasClosing || q.bad)))
  }

  /** What one call does, in terms of the parse of all bytes at hand: as many packets as the
      session accepts go to its queue in order, the rest of the bytes stay, and receiving goes
      on unless the session refused or a size was impossible. */
  ghost predicate Cut(packets: seq<byte>, room: nat, before: seq<seq<byte>>, wasClosing: bool,
                      tasks: seq<seq<byte>>, closing: bool, leftover: seq<byte>, shouldReceive: bool)
  {
    var p := Parse(packets, BUF_SIZE);
    if |p.frames| <= room then
      && tasks == before + p.frames && leftover == p.rest
      && shouldReceive == !p.bad && closing == (wasClosing || p.bad)
    else
      && tasks == before + p.frames[..room] && leftover == Flat(p.frames[room..]) + p.rest
      && !shouldReceive && closing == wasClosing
  }

  lemma CutStarts(packets: seq<byte>, room: nat, tasks: seq<seq<byte>>, closing: bool)
    ensures CutSoFar(packets, 0, room, 0, tasks, closing, tasks, closing, true, true)
  {
    hide Parse;
    var p := Parse(packets, BUF_SIZE);
    assert packets[0..] == packets && p.frames[..0] == [] && [] + p.frames == p.frames;
  }

  /** The four branches of the loop. */
  lemma CutStep(packets: seq<byte>, offset: nat, room: nat, sent: nat, before: seq<seq<byte>>, wasClosing: bool,
                tasks: seq<seq<byte>>, closing: bool)
    requires offset <= |packets| && |packets| - offset >= PACKET_HEADER_SIZE
    requires CutSoFar(packets, offset, room, sent, before, wasClosing, tasks, closing, true, true)
    ensures var rest := packets[offset..];
            var size := SizeOf(rest);
            if size < PACKET_HEADER_SIZE || size > BUF_SIZE then
              CutSoFar(packets, offset, room, sent, before, wasClosing, tasks, true, false, false)
            else if |rest| < size then
              CutSoFar(packets, offset, room, sent, before, wasClosing, tasks, closing, false, true)
            else if sent == room then
              CutSoFar(packets, offset, room, sent, before, wasClosing, tasks, closing, false, false)
            else
              CutSoFar(packets, offset + size, room, sent + 1, before, wasClosing, tasks + [rest[..size]], closing, true, true)
  {
    hide Parse, SizeOf;
    var rest := packets[offset..];
    var size := SizeOf(rest);
    var p := Parse(packets, BUF_SIZE);
    if StartsWithFrame(rest, BUF_SIZE) {
      FirstFrame(rest, BUF_SIZE);
      assert rest[size..] == packets[offset + size..];
      ParseFrame(rest[..size], rest[size..], BUF_SIZE);
      var q := Parse(rest[size..], BUF_SIZE);
      assert p.frames == p.frames[..sent] + ([rest[..size]] + q.frames);
      assert p.frames[..sent + 1] == p.frames[..sent] + [rest[..size]];
      assert p.frames[..sent + 1] + q.frames == p.frames;
      assert tasks + [rest[..size]] == before + p.frames[..sent + 1];
    } else {
      NoFirstFrame(rest, BUF_SIZE);
    }
  }

  lemma CutEnds(packets: seq<byte>, offset: nat, room: nat, sent: nat, before: seq<seq<byte>>, wasClosing: bool,
                tasks: seq<seq<byte>>, closing: bool, running: bool, shouldReceive: bool)
    requires CutSoFar(packets, offset, room, sent, before, wasClosing, tasks, closing, running, shouldReceive)
    requires !running || |packets| - offset < PACKET_HEADER_SIZE
    ensures Cut(packets, room, before, wasClosing, tasks, closing, packets[offset..], shouldReceive)
  {
    hide Parse, SizeOf, Flat, AreFrames;
    var p := Parse(packets, BUF_SIZE);
    var q := Parse(packets[offset..], BUF_SIZE);
    ParseIsExact(packets[offset..], BUF_SIZE);
    FlatCons([], []);
    if |packets| - offset < PACKET_HEADER_SIZE {
      NoFirstFrame(packets[offset..], BUF_SIZE);
    }
    assert p.frames[sent..] == q.frames;
    if q.frames == [] {
      assert p.frames == p.frames[..sent] + [] == p.frames[..sent];
      assert Flat(q.frames) + q.rest == q.rest;
    }
  }

  /** While a session may go on receiving, its leftover leaves room for at least one byte. */
  lemma NextReceiveAsksForSomething(packets: seq<byte>, room: nat, before: seq<seq<byte>>, wasClosing: bool,
                                    tasks: seq<seq<byte>>, closing: bool, leftover: seq<byte>)
    requires Cut(packets, room, before, wasClosing, tasks, closing, leftover, true)
    ensures |leftover| < BUF_SIZE
    ensures tasks == before + Parse(packets, BUF_SIZE).frames
  {
    ParseIsExact(packets, BUF_SIZE);
  }

  // ---------- A whole stream ----------

  /** The queue holds the packets of the stream, and the buffer what is left of it. */
  ghost predicate Received(stream: seq<byte>, tasks: seq<seq<byte>>, closing: bool, leftover: seq<byte>) {
    var p := Parse(stream, BUF_SIZE);
    tasks == p.frames && closing == p.bad && (!closing ==> leftover == p.rest)
  }

  /** A receive never asks for more bytes than the buffer has left. */
  ghost predicate Fits(chunks: seq<seq<byte>>) {
    forall n :: 0 <= n < |chunks| ==>
      var p := Parse(Flat(chunks[..n]), BUF_SIZE);
      !p.bad ==> |p.rest| + |chunks[n]| <= BUF_SIZE
  }

  lemma NothingReceived()
    ensures Received(Flat([]), [], false, [])
  {
  }

  lemma ChunkFits(chunks: seq<seq<byte>>, i: nat, tasks: seq<seq<byte>>, leftover: seq<byte>)
    requires i < |chunks| && Fits(chunks) && Received(Flat(chunks[..i]), tasks, false, leftover)
    ensures |leftover| + |chunks[i]| <= BUF_SIZE
  {
  }

  lemma {:induction false} FramesAreFew(bytes: seq<byte>, limit: nat)
    ensures |Parse(bytes, limit).frames| <= |bytes|
  {
    hide SizeOf;
    if StartsWithFrame(bytes, limit) {
      FramesAreFew(bytes[SizeOf(bytes)..], limit);
    }
  }

  lemma ReceiveStep(chunks: seq<seq<byte>>, i: nat, before: seq<seq<byte>>, leftover: seq<byte>,
                    tasks: seq<seq<byte>>, closing: bool, leftover': seq<byte>, receiving: bool)
    requires i < |chunks| && Received(Flat(chunks[..i]), before, false, leftover) && |leftover| + |chunks[i]| <= BUF_SIZE
    requires Cut(leftover + chunks[i], BUF_SIZE, before, false, tasks, closing, leftover', receiving)
    ensures Received(Flat(chunks[..i + 1]), tasks, closing, leftover') && receiving == !closing
  {
    hide Parse, Flat, AreFrames;
    assert chunks[..i + 1] == chunks[..i] + [chunks[i]];
    FlatSplit(chunks[..i], [chunks[i]]);
    FlatCons(chunks[i], []);
    FlatCons([], []);
    assert [chunks[i]] + [] == [chunks[i]] && chunks[i] + [] == chunks[i];
    ParseAppend(Flat(chunks[..i]), chunks[i], BUF_SIZE);
    FramesAreFew(leftover + chunks[i], BUF_SIZE);
  }

  lemma ReceiveEnds(chunks: seq<seq<byte>>, i: nat, tasks: seq<seq<byte>>, closing: bool, leftover: seq<byte>)
    requires i <= |chunks| && Received(Flat(chunks[..i]), tasks, closing, leftover) && (!closing ==> i == |chunks|)
    ensures Received(Flat(chunks), tasks, closing, leftover)
  {
    hide Parse, Flat;
    assert chunks == chunks[..i] + chunks[i..];
    FlatSplit(chunks[..i], chunks[i..]);
    ParseAppend(Flat(chunks[..i]), Flat(chunks[i..]), BUF_SIZE);
    assert !closing ==> chunks[..i] == chunks;
  }

  // ---------- The client ----------

  /** How many frames in a row the client can unpack. */
  function Understood(frames: seq<seq<byte>>): (n: nat)
    requires AreFrames(frames, UNBOUNDED)
    ensures n <= |frames|
    ensures forall i :: 0 <= i < n ==> Decoded(frames[i]).Some?
    ensures n < |frames| ==> Decoded(frames[n]).None?
  {
    if frames == [] || Decoded(frames[0]).None? then 0 else 1 + Understood(frames[1..])
  }

  function Messages(frames: seq<seq<byte>>): (packets: seq<Packet>)
    requires AreFrames(frames, UNBOUNDED) && forall i :: 0 <= i < |frames| ==> Decoded(frames[i]).Some?
    ensures |packets| == |frames|
    ensures forall i :: 0 <= i < |frames| ==> Decoded(frames[i]) == Some(packets[i])
  {
    if frames == [] then [] else Messages(frames[..|frames| - 1]) + [Decoded(frames[|frames| - 1]).value]
  }

  /** What one pass over the client's buffer does. An exception leaves the buffer as it was,
      with the packets in front of the offending frame already in the queue. */
  ghost predicate Drained(buffer: seq<byte>, before: seq<Packet>, buffer': seq<byte>, queue: seq<Packet>, raised: bool) {
    var p := Parse(buffer, UNBOUNDED);
    ParseIsExact(buffer, UNBOUNDED);
    var n := Understood(p.frames);
    && queue == before + Messages(p.frames[..n])
    && (raised <==> p.bad || n < |p.frames|)
    && buffer' == if raised then buffer else p.rest
  }

  class PacketManager {
    var recvBuffer: seq<byte>
    var queue: seq<Packet>

    constructor ()
      ensures recvBuffer == [] && queue == []
    {
      recvBuffer := [];
      queue := [];
    }

    method MergePacket(bytes: seq<byte>)
      modifies this`recvBuffer
      ensures recvBuffer == old(recvBuffer) + bytes
    {
      recvBuffer := recvBuffer + bytes;
    }

    method ProcessPacket() returns (raised: bool)
      modifies this
      ensures Drained(old(recvBuffer), old(queue), recvBuffer, queue, raised)
    {
      hide Parse, SizeOf, Decoded, DrainedSoFar, Drained;
      var offset := 0;
      var running := true;
      DrainStarts(recvBuffer, queue);
      while running
        modifies this`queue
        invariant offset <= |recvBuffer| == |old(recvBuffer)|
        invariant DrainedSoFar(recvBuffer, offset, old(queue), queue)
        invariant !running ==> !StartsWithFrame(recvBuffer[offset..], UNBOUNDED) && !Malformed(recvBuffer[offset..])
        decreases running, |recvBuffer| - offset
      {
        var rest := recvBuffer[offset..];
        if |rest| < PACKET_HEADER_SIZE {
          running := false;
        } else {
          var size := SizeOf(rest);
          DrainStep(recvBuffer, offset, old(queue), queue);
          if size < PACKET_HEADER_SIZE {
            return true;
          }
          if |rest| < size {
            running := false;
          } else {
            var data := Decoded(rest[..size]);
            if data.None? {
              return true;
            }
            queue := queue + [data.value];
            offset := offset + size;
          }
        }
      }
      DrainEnds(recvBuffer, offset, old(queue), queue);
      recvBuffer := recvBuffer[offset..];
      return false;
    }
  }

  predicate Malformed(bytes: seq<byte>) {
    |bytes| >= PACKET_HEADER_SIZE && SizeOf(bytes) < PACKET_HEADER_SIZE
  }

  ghost predicate DrainedSoFar(buffer: seq<byte>, offset: nat, before: seq<Packet>, queue: seq<Packet>) {
    && offset <= |buffer|
    && exists n: nat :: DrainedFirst(buffer, offset, before, queue, n)
  }

  /** The first `n` frames have been read and unpacked. */
  ghost predicate DrainedFirst(buffer: seq<byte>, offset: nat, before: seq<Packet>, queue: seq<Packet>, n: nat)
    requires offset <= |buffer|
  {
    var (p, q) := (Parse(buffer, UNBOUNDED), Parse(buffer[offset..], UNBOUNDED));
    ParseIsExact(buffer, UNBOUNDED);
    && n <= Understood(p.frames)
    && p == Parsed(p.frames[..n] + q.frames, q.rest, q.bad)
    && queue == before + Messages(p.frames[..n])
  }

  lemma DrainStarts(buffer: seq<byte>, queue: seq<Packet>)
    ensures DrainedSoFar(buffer, 0, queue, queue)
  {
    hide Parse, Understood, Decoded;
    var p := Parse(buffer, UNBOUNDED);
    ParseIsExact(buffer, UNBOUNDED);
    assert buffer[0..] == buffer && p.frames[..0] == [] && [] + p.frames == p.frames;
    assert DrainedFirst(buffer, 0, queue, queue, 0);
  }

  lemma NextFrame(frames: seq<seq<byte>>, n: nat, frame: seq<byte>, more: seq<seq<byte>>)
    requires n <= |frames| && frames == frames[..n] + ([frame] + more)
    ensures n < |frames| && frames[n] == frame
    ensures frames[..n + 1] == frames[..n] + [frame] && frames == frames[..n + 1] + more
    ensures frames[..n + 1][..n] == frames[..n]
  {
  }

  lemma DrainStep(buffer: seq<byte>, offset: nat, before: seq<Packet>, queue: seq<Packet>)
    requires offset <= |buffer| && |buffer| - offset >= PACKET_HEADER_SIZE && DrainedSoFar(buffer, offset, before, queue)
    ensures var rest := buffer[offset..];
            var size := SizeOf(rest);
            if size < PACKET_HEADER_SIZE then Drained(buffer, before, buffer, queue, true)
            else |rest| >= size ==>
              match Decoded(rest[..size])
              case None => Drained(buffer, before, buffer, queue, true)
              case Some(packet) => DrainedSoFar(buffer, offset + size, before, queue + [packet])
  {
    hide Parse, SizeOf, Decoded, Understood, AreFrames, Flat;
    var n: nat :| DrainedFirst(buffer, offset, before, queue, n);
    var rest := buffer[offset..];
    var size := SizeOf(rest);
    var p := Parse(buffer, UNBOUNDED);
    ParseIsExact(buffer, UNBOUNDED);
    if StartsWithFrame(rest, UNBOUNDED) {
      FirstFrame(rest, UNBOUNDED);
      assert rest[size..] == buffer[offset + size..];
      ParseFrame(rest[..size], rest[size..], UNBOUNDED);
      var q := Parse(rest[size..], UNBOUNDED);
      NextFrame(p.frames, n, rest[..size], q.frames);
      if Decoded(rest[..size]).Some? {
        assert DrainedFirst(buffer, offset + size, before, queue + [Decoded(rest[..size]).value], n + 1);
      }
    } else {
      NoFirstFrame(rest, UNBOUNDED);
      assert p.frames == p.frames[..n];
    }
  }

  lemma DrainEnds(buffer: seq<byte>, offset: nat, before: seq<Packet>, queue: seq<Packet>)
    requires DrainedSoFar(buffer, offset, before, queue)
    requires !StartsWithFrame(buffer[offset..], UNBOUNDED) && !Malformed(buffer[offset..])
    ensures Drained(buffer, before, buffer[offset..], queue, false)
  {
    hide Parse, SizeOf, Decoded, Understood;
    var n: nat :| DrainedFirst(buffer, offset, before, queue, n);
    NoFirstFrame(buffer[offset..], UNBOUNDED);
    var p := Parse(buffer, UNBOUNDED);
    ParseIsExact(buffer, UNBOUNDED);
    assert p.frames == p.frames[..n];
  }

  // ---------- The client's receive loop ----------

  /** What the client has understood of a stream: the packets up to the first one it cannot unpack,
      and whether it has given up. */
  ghost predicate Heard(stream: seq<byte>, queue: seq<Packet>, raised: bool) {
    var p := Parse(stream, UNBOUNDED);
    ParseIsExact(stream, UNBOUNDED);
    var n := Understood(p.frames);
    queue == Messages(p.frames[..n]) && (raised <==> p.bad || n < |p.frames|)
  }

  lemma NothingHeard()
    ensures Heard(Flat([]), [], false) && Parse(Flat([]), UNBOUNDED).rest == []
  {
  }

  lemma {:induction false} UnderstoodAppend(a: seq<seq<byte>>, b: seq<seq<byte>>)
    requires AreFrames(a, UNBOUNDED) && AreFrames(b, UNBOUNDED)
    ensures Understood(a + b) == if Understood(a) == |a| then |a| + Understood(b) else Understood(a)
    decreases |a|
  {
    hide Decoded;
    if a == [] {
      assert a + b == b;
    } else {
      assert (a + b)[1..] == a[1..] + b;
      UnderstoodAppend(a[1..], b);
    }
  }

  lemma {:induction false} MessagesAppend(a: seq<seq<byte>>, b: seq<seq<byte>>)
    requires AreFrames(a + b, UNBOUNDED) && forall i :: 0 <= i < |a + b| ==> Decoded((a + b)[i]).Some?
    ensures AreFrames(a, UNBOUNDED) && AreFrames(b, UNBOUNDED)
    ensures forall i :: 0 <= i < |a| ==> Decoded(a[i]).Some?
    ensures forall i :: 0 <= i < |b| ==> Decoded(b[i]).Some?
    ensures Messages(a + b) == Messages(a) + Messages(b)
  {
    hide Decoded;
    assert forall i :: 0 <= i < |a| ==> a[i] == (a + b)[i];
    assert forall i :: 0 <= i < |b| ==> b[i] == (a + b)[|a| + i];
  }

  /** One more chunk on a stream that was understood so far. */
  lemma HearStep(stream: seq<byte>, chunk: seq<byte>, before: seq<Packet>, rest: seq<byte>,
                 queue: seq<Packet>, rest': seq<byte>, raised: bool)
    requires Heard(stream, before, false) && rest == Parse(stream, UNBOUNDED).rest
    requires Drained(rest + chunk, before, rest', queue, raised)
    ensures Heard(stream + chunk, queue, raised) && (!raised ==> rest' == Parse(stream + chunk, UNBOUNDED).rest)
  {
    hide Parse, Decoded, Understood, Messages, Flat;
    ParseAppend(stream, chunk, UNBOUNDED);
    ParseIsExact(stream, UNBOUNDED);
    ParseIsExact(rest + chunk, UNBOUNDED);
    ParseIsExact(stream + chunk, UNBOUNDED);
    var (p, q) := (Parse(stream, UNBOUNDED), Parse(rest + chunk, UNBOUNDED));
    UnderstoodTogether(p.frames, q.frames);
    assert p.frames[..|p.frames|] == p.frames;
  }

  /** Frames behind others that were all understood. */
  lemma UnderstoodTogether(a: seq<seq<byte>>, b: seq<seq<byte>>)
    requires AreFrames(a, UNBOUNDED) && AreFrames(b, UNBOUNDED) && Understood(a) == |a|
    ensures AreFrames(a + b, UNBOUNDED) && Understood(a + b) == |a| + Understood(b)
    ensures Messages((a + b)[..|a| + Understood(b)]) == Messages(a) + Messages(b[..Understood(b)])
  {
    hide Decoded, Messages;
    UnderstoodAppend(a, b);
    var n := Understood(b);
    assert (a + b)[..|a| + n] == a + b[..n];
    MessagesAppend(a, b[..n]);
  }

  /** What comes after an exception changes nothing. */
  lemma HeardEnough(stream: seq<byte>, more: seq<byte>, queue: seq<Packet>)
    requires Heard(stream, queue, true)
    ensures Heard(stream + more, queue, true)
  {
    hide Parse, Decoded;
    ParseAppend(stream, more, UNBOUNDED);
    ParseIsExact(stream, UNBOUNDED);
    ParseIsExact(stream + more, UNBOUNDED);
    var p := Parse(stream, UNBOUNDED);
    if !p.bad {
      var q := Parse(p.rest + more, UNBOUNDED);
      ParseIsExact(p.rest + more, UNBOUNDED);
      UnderstoodAppend(p.frames, q.frames);
      var n := Understood(p.frames);
      assert (p.frames + q.frames)[..n] == p.frames[..n];
    }
  }

  /** The client's receive loop: whatever the chunks, the queue ends up with the packets of the
      whole stream, up to the first one that raises. */
  method RecvLoop(manager: PacketManager, chunks: seq<seq<byte>>) returns (raised: bool)
    requires manager.recvBuffer == [] && manager.queue == []
    modifies manager
    ensures Heard(Flat(chunks), manager.queue, raised)
    ensures !raised ==> manager.recvBuffer == Parse(Flat(chunks), UNBOUNDED).rest
  {
    hide Parse, Flat, Heard, Drained;
    NothingHeard();
    assert chunks[..0] == [];
    raised := false;
    for i := 0 to |chunks|
      invariant Heard(Flat(chunks[..i]), manager.queue, false)
      invariant manager.recvBuffer == Parse(Flat(chunks[..i]), UNBOUNDED).rest
    {
      ghost var (before, rest) := (manager.queue, manager.recvBuffer);
      manager.MergePacket(chunks[i]);
      raised := manager.ProcessPacket();
      HearStep(Flat(chunks[..i]), chunks[i], before, rest, manager.queue, manager.recvBuffer, raised);
      assert chunks[..i + 1] == chunks[..i] + [chunks[i]];
      FlatSnoc(chunks[..i], chunks[i]);
      if raised {
        assert chunks == chunks[..i + 1] + chunks[i + 1..];
        FlatSplit(chunks[..i + 1], chunks[i + 1..]);
        HeardEnough(Flat(chunks[..i + 1]), Flat(chunks[i + 1..]), manager.queue);
        return;
      }
    }
    assert chunks[..|chunks|] == chunks;
  }
}
