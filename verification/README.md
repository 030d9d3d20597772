# Project Tetris in Dafny

A verified model of the multiplayer Tetris server and of the part of its Python client that
packets drive. The server ticks every player's board in place and sends an ordered list of
tasks; the client rebuilds the board from that list alone. Around this core the server hands
sessions between a lobby and rooms through queues worked on by several threads.

`dafny verify dfyconfig.toml` checks everything.

| file | module | what it models |
|---|---|---|
| Tetromino.dfy, Board.dfy | Tetromino, Board | the shape tables of both sides; the 25 by 10 board, rows, filling, clearing, pushing up |
| TetrisTimers.dfy | Timing | input, descent and garbage deadlines |
| TickSpec.dfy | TickSpec | one player's tick and runs of ticks, as functions on values |
| Tetris.dfy | Engine | the engine that works in place, proved to compute those functions |
| GameRoom.dfy | GameRoom | a multi-player room's game in place: start, ticks, sending; and the whole way to a client |
| TickEffects.dfy, GarbageEffects.dfy | the same names | what a tick and its garbage do to a player, written out with the protocol's codes and times |
| TickInvariant.dfy | TickInvariant | what every tick and every run keeps; staying inside the board; byte-sized coordinates |
| HardDrop.dfy, LockSpacing.dfy, PieceBag.dfy | the same names | drop and preview; the rate of locks; the shared list of pieces |
| Packets.dfy, PacketBound.dfy | the same names | the wire format and its round trip; how large a tick can get |
| RoomPackets.dfy | RoomPackets | send buffers, garbage distribution, building and batching a tick's packets |
| ClientBoard.dfy, Replay.dfy | the same names | the client's board and the refinement between the two sides |
| Framing.dfy | Framing | cutting the byte stream into packets, on the server and on the client |
| EndToEnd.dfy | EndToEnd | server games to client boards, through bytes, on values |
| TaskQueue.dfy | TaskQueue | the counted queue, and the loops that consume a session's tasks |
| PhaseBarrier.dfy, PhaseProgress.dfy | the same names | the game-phase protocol of the worker threads: its order, and that it cannot get stuck |
| Disconnect.dfy | Disconnect | registering, completing and disconnecting on one session, in split steps |
| SlotReuse.dfy | SlotReuse | the same over all occupants of a session slot: what late completions can do |
| Room.dfy, RoomEffects.dfy | Rooms, RoomEffects | slots, task queue and deletion of a room; what each of its tasks does, and to whom |
| Ownership.dfy, Server.dfy | Ownership, Server | the session, lobby and room protocol; the objects that carry it out |
| Departure.dfy | Departure | how a disconnect is carried on until the slot is free |
| Journeys.dfy | Journeys | where sequences of steps take a session: into a room and back, and out of the server |
| Orphans.dfy | Orphans | how a session can lose its last owner, and what becomes of it |
| Ranking.dfy | Ranking | the cached top ten |

Objects that the source updates in place are classes here, with arrays where it has fixed
buffers, and every method is tied to a function of its old state; the theorems are about
those functions. What the functions themselves mean is stated without them: `TickEffects`,
`GarbageEffects` and `RoomEffects` say exactly what every input, garbage line and room task
does, and `Journeys` what becomes of a session. Protocols between threads are step machines,
and the theorems hold for every interleaving of their steps. Random choices (the shuffle, the
garbage column), clocks, session ids, database answers and what other threads do are
parameters.

How the theorems fit together: `TickInvariant` keeps a player's state good over a run,
`PacketBound` and `RoomPackets` turn it into bytes that always fit and are sent in one
piece, `Framing` finds the same packets however the bytes arrive, `Packets` gives back the
fields, and `Replay` shows that applying them yields the server's board. `EndToEnd` composes
these on values, and `GameRoom.WatchGame` runs the whole way in place: engines, send buffers,
broadcast, any chunking, and the client's receive loop, with players leaving as they like.

Three statements one might expect are false of the code; each has a concrete run and the exact
condition.

* DISCONNECTING does not imply that no I/O is pending, because a completion's decrement and
  swap are two steps (`Disconnect.PendingNeedNotBeZero`, `Disconnect.HazardExactly`).
* A completion that arrives with an old key is dropped, but one that had passed its key check
  when the slot was freed can count down the next occupant's I/O, or finish that occupant's
  disconnect under the old key, so that no call announces it (`SlotReuse.LateDecrementHappens`,
  `SlotReuse.LateSwapHappens`). `SlotReuse.LateStepChangesExactly` says which steps do harm,
  `SlotReuse.StragglersComeFromReuse` and `SlotReuse.CaughtExactly` when there are any, and
  `SlotReuse.UnannouncedExactly` when a slot that was not announced can still become free: only
  if a room's host can kick the player. The theorems of `Departure` take a completion as one
  step and leave these interleavings out.
* With two lobby threads a session can be lost, because its arrival in the lobby can overtake
  the news of its entry into a room (`Orphans.OvertakingOrphans`, `Orphans.OrphanedExactly`);
  it then stays lost (`Orphans.OrphanForever`). When the lobby takes its tasks in order it
  cannot happen (`Ownership.NeverOrphaned`).

One modelling note: between a lock and the next spawn the piece may overlap the board or leave
it, and moves of it are still sent. The invariants therefore speak of the piece only when
nothing was locked in the tick; the client ignores such moves because it holds no piece
(`Replay.TickReplays`).

The comment in front of the winner choice promises that a simultaneous knock-out picks among
the last survivors; the condition at MultiRoom.cpp:405 accepts any player who is out, so no
such claim is made.

## Model

| member | source | states |
|---|---|---|
| Tetromino.SameShapeTables | Server/Game/Tetromino.h:25-59 | The server's shape table and the client's have the same cells in the same order for every kind and rotation, so rotating on one side is rotating on the other. |
| Tetromino.Rotated | Server/Game/Tetris.cpp:63-69 | The next rotation of the kind, at the same place, still a piece of the table. |
| Tetromino.RotatedIsQuarterTurn | Server/Game/Tetromino.h:25-59 | A rotation is a quarter turn of the four cells, up to where the kind's box puts them; the square stays as it is. |
| TickSpec.MoveEffect | Server/Game/Tetris.cpp:24-93 | An input does one of three things: nothing at all; one step onto free cells, announced by one MOVE task; or a lock by DOWN or DROP, announced by one FIX task with the final position. |
| TickEffects.EarlyInput | Server/Game/Tetris.cpp:27 | An input before its deadline does nothing at all. |
| TickEffects.DownLocksExactly | Server/Game/Tetris.cpp:49-61 | An allowed DOWN locks the piece exactly if one row lower it does not fit; otherwise it moves there. |
| TickEffects.SideStepsExactly | Server/Game/Tetris.cpp:29-76 | An allowed RIGHT, LEFT or ROTATE is made exactly if the shifted or turned piece fits, and otherwise does nothing; it never locks. |
| TickEffects.DropLocksAlways | Server/Game/Tetris.cpp:78-90 | An allowed DROP always locks, in the same column; a piece that does not fit where it is locks there. |
| TickSpec.Landing | Server/Game/Tetris.cpp:78-90 | The drop loop ends, on a position that is valid, straight below and never above the start. |
| Engine.Tetris.ProcessMoveInput | Server/Game/Tetris.cpp:24-93 | In place, with the drop loop: the new piece, timers, tasks and result are exactly those of the input on the old state; the board is not touched. |
| Engine.Tetris.IsValidPosition | Server/Game/Tetris.cpp:95-110 | True exactly when all four cells are inside the board and free. |
| Engine.Tetris.FixTetromino | Server/Game/Tetris.cpp:112-124 | Fills exactly the four cells of the piece. The caller must keep them inside the board; that this always holds is TickInvariant.RunStaysInBounds. |
| Engine.Tetris.RotateDown | Server/Game/Tetris.cpp:135 | The rotation by std::rotate moves row y to the top and every row above it down by one. |
| Engine.Tetris.ClearLine | Server/Game/Tetris.cpp:126-143 | The loop that empties and rotates each full row in place leaves the board with all full visible rows dropped and as many empty rows on top, emits one CLEAR_LINE task per full row from top to bottom, and counts them. |
| Board.ClearedAboveStep | Server/Game/Tetris.cpp:128-141 | One iteration of the clearing loop is one step of "keep the rows that are not full, put empty ones on top". |
| Board.ClearedHasNoFullRow | Server/Game/Tetris.cpp:126-143 | After clearing no visible row is full, if no hidden row was. |
| Board.ClearedCount | Server/Game/Tetris.cpp:126-143 | Clearing takes away exactly ten filled cells per full row. |
| Board.RowsFall | Server/Game/Tetris.cpp:126-143 | Gravity: a row that is not cleared falls by the number of full rows below it, hidden rows by all of them, and what is left at the top is empty. |
| Board.FilledCount | Server/Game/Tetris.cpp:112-124 | A valid piece adds exactly four filled cells: its cells are free and distinct. |
| Board.PushedUpCount | Server/Game/Tetris.cpp:145-158 | A garbage line adds nine filled cells, less whatever stood in the top row that is pushed out. |
| Engine.Tetris.AddGarbageLine | Server/Game/Tetris.cpp:149-157 | The whole board moves up one row and the new bottom row is full but for the hole. |
| Engine.Tetris.AddGarbageLines | Server/Game/Tetris.cpp:145-170 | Line by line: push, announce, stop at game over, else lift the piece one row if it no longer fits. |
| GarbageEffects.GarbageWrittenOut | Server/Game/Tetris.cpp:145-170 | All pending lines come in, in order and each announced, up to the first that brings something into the hidden rows, which ends the game; the rows rise by as many and the piece by one per announced lift. |
| GarbageEffects.StopsSomewhere | Server/Game/Tetris.cpp:145-161 | There is exactly one number of lines after which it stops. |
| GarbageEffects.LiftsOnlyWhenPushed | Server/Game/Tetris.cpp:163-169 | The piece stays exactly if the rows that come up leave its cells free; otherwise it rises by one row, announced. |
| Engine.Tetris.CheckGameOver | Server/Game/Tetris.cpp:203-224 | True exactly when a hidden row holds a filled cell, and then a GAME_OVER task is emitted. |
| Engine.Tetris.HandleInput | Server/Game/Tetris.cpp:252-268 | One pressed input with the lock it may bring: clearing, the restarted timers and the check for game over. |
| Engine.Tetris.RunInputs | Server/Game/Tetris.cpp:252-270 | Pressed inputs run from DROP down to RIGHT, each at most once a tick. |
| Engine.Tetris.PrepareTick | Server/Game/Tetris.cpp:226-250 | Due garbage and due automatic descent are added before the inputs are merged by kind; unknown codes are ignored. |
| Engine.Tetris.ProcessTick | Server/Game/Tetris.cpp:226-271 | The in-place tick computes exactly TickSpec.Ticked of the old state. |
| TickEffects.TickWrittenOut | Server/Game/Tetris.cpp:226-271 | The whole tick of a piece that can fall d rows, with literal codes and times: what is due; a drop that locks d rows lower, or else a descent that goes one row down or locks at d = 0; then the turn, left and right, each if asked for, allowed and free. |
| TickEffects.TickLocksWhereItLands | Server/Game/Tetris.cpp:252-270 | Every lock of a tick leaves the piece where it fits and one row lower does not: the tick locks exactly if a drop is let through or a descent finds the piece landed, always at the one depth where it lands; without a lock no cell changes. |
| TickEffects.DescentDescends | Server/Game/Tetris.cpp:236-239 | A piece nobody moves falls: when the descent is due and not barred it is one row lower, or locks at its place if there it does not fit. |
| TickEffects.NothingHappens | Server/Game/Tetris.cpp:226-271 | Without inputs and with nothing due a tick changes nothing at all. |
| TickEffects.SingleInput | Server/Game/Tetris.cpp:241-270 | What each of the codes 0 to 4 does alone; other codes, barred inputs and blocked steps do nothing. |
| Engine.Tetris.ResetTickData | Server/Game/Tetris.cpp:278-285 | The tick's inputs, tasks, pending lines and counts are gone; board, piece and timers stay. |
| TickSpec.Reset | Server/Game/Tetris.cpp:278-285 | Nothing of the tick is left over; board, piece and deadlines stay. |
| Engine.Tetris.Clear | Server/Game/Tetris.cpp:190-201 | The board is empty, no move is pending and the deadlines are fresh; inputs, tasks and counts stay as the last tick left them. |
| Engine.Tetris.StartGame | Server/Rooms/MultiRoom.cpp:305-308 | After the last tick was reset, the first piece and Clear give a new game with nothing of an earlier one. |
| Engine.Tetris.AddSpawn | Server/Rooms/TetrisRoom.cpp:415-437 | A spawn task and the next piece if and only if a piece was locked in this tick. |
| Engine.Tetris.PlaySingle | Server/Rooms/SingleRoom.cpp:74-86 | A single-player room's tick on its engine computes exactly TickSpec.Played. |
| GarbageEffects.TickCloses | Server/Rooms/TetrisRoom.cpp:415-437 | The next piece comes exactly after a lock, in a single-player room while nothing is in the hidden rows (SingleRoom.cpp:79-85), in the others while the game goes on; it stands at (3, 0) and is announced last. The end of the game is announced exactly when the room says so, with its winner. |
| Timing.TetrisTimers.RecordInput | Server/Game/TetrisTimers.cpp:39-60 | Only the deadline of the recorded input moves, by that input's own timeout. |
| Timing.Timers.Recorded | Server/Game/TetrisTimers.cpp:39-60 | The input is barred for 50 ms, a rotation or a drop for 100 ms; no other deadline moves. |
| Timing.FreshTimers | Server/Game/TetrisTimers.cpp:9-19 | Every input is allowed at once, the first descent is due after 500 ms and the first garbage line after 10000 ms. |
| Timing.TetrisTimers.RestartAutoDown | Server/Game/TetrisTimers.cpp:67-70 | Only the automatic-descent deadline moves. |
| Timing.TetrisTimers.RestartGarbageLine | Server/Game/TetrisTimers.cpp:77-80 | Only the garbage deadline moves. |
| TickInvariant.LockClearsAtMostFour | Server/Game/Tetris.cpp:112-143 | One lock on a board without full rows completes at most four rows. |
| TickInvariant.OneLiftIsEnough | Server/Game/Tetris.cpp:145-170 | If a garbage line does not end the game, a piece that no longer fits fits again one row higher. |
| TickInvariant.TickKeepsPlayable | Server/Game/Tetris.cpp:226-271 | A player who is still in the game after a tick, single or multi, has empty hidden rows, no full visible row and a piece on four free cells inside the board, and the cells on the board are accounted for by the tick's tasks. |
| TickInvariant.StartedIsPlayable | Server/Game/Tetris.cpp:13-20 | A game starts in such a state. |
| TickInvariant.RunInvariant | Server/Rooms/MultiRoom.cpp:345-377 | Over any run of ticks in which the player stays in the game: the invariant holds at the end, and the filled cells are four per lock plus nine per garbage line less ten per cleared row. |
| TickInvariant.RunStaysInBounds | Server/Game/Tetris.cpp:112-124 | Every lock of every tick of a running game, of players in it and of players already out, writes inside the board. |
| TickInvariant.CoordinatesFitInByte | Server/Game/Tetromino.h:14-16 | Every coordinate a tick sends survives its narrowing to a signed byte. |
| TickInvariant.OutStaysOut | Server/Rooms/TetrisRoomPackets.cpp:14-16 | Who is out of the game stays out. |
| HardDrop.LandingIsLowest | Server/Game/Tetris.cpp:78-90 | The drop ends at a depth to which every row in between is free and below which none is. |
| HardDrop.DropLocksAtLanding | Server/Game/Tetris.cpp:78-90 | An allowed drop locks the piece in one step, at the one depth it can fall to and no other. |
| HardDrop.PreviewIsHardDrop | client/tetris/game/tetris_board.py:168-189 | On a grid that shows the server's board the client's landing preview is the position where the server's drop locks. |
| LockSpacing.TickStep | Server/Game/Tetris.cpp:252-270 | A tick locks at most one piece, and only when its time has reached the bar set by the last lock. |
| LockSpacing.LocksAreSpaced | Server/Game/TetrisTimers.cpp:21-60 | Over any run of ticks, even with tick times out of order, consecutive locks have tick times at least 50 ms apart. |
| LockSpacing.LockRate | Server/Game/TetrisTimers.cpp:21-60 | At most T/50 + 1 locks of a game have their tick times in any T milliseconds. |
| LockSpacing.AnyTwoLocks | Server/Game/TetrisTimers.cpp:21-60 | The spacing holds for any two locks of a run, not only neighbours. |
| ClientBoard.TetrisBoard.Fix | client/tetris/game/tetris_board.py:121-132 | The announced cells get the piece's letter and the piece is gone; without a piece nothing happens; raises exactly when a Python index would. |
| ClientBoard.TetrisBoard.ClearLines | client/tetris/game/tetris_board.py:134-137 | One row goes and an empty one comes on top, or an exception leaves the grid as it was. |
| ClientBoard.TetrisBoard.AddLine | client/tetris/game/tetris_board.py:145-150 | A garbage row comes at the bottom and the top row goes, or an exception leaves the grid as it was. |
| ClientBoard.TetrisBoard.HandleMove | client/tetris/game/tetris_board.py:153-166 | Moves or turns the piece as announced, and does nothing without one. |
| ClientBoard.TetrisBoard.HandlePacket | client/tetris/game/tetris_session.py:157-186 | A packet changes the grid, the piece and the preview exactly as ClientBoard.Applied says, or raises. |
| ClientBoard.TetrisBoard.MakeLandingTetromino | client/tetris/game/tetris_board.py:168-189 | The preview is where the piece stands when every row above it is free and the next one down is not. |
| ClientBoard.TetrisBoard.Fits | client/tetris/game/tetris_board.py:183-187 | The cell-by-cell loop says whether all four cells are inside the grid and empty. |
| Replay.TickReplays | client/tetris/game/tetris_session.py:157-186 | Replaying one tick's packets raises nothing and gives the server's occupied cells and piece, whatever locks, cleared rows, garbage, upward shifts and moves of the already locked piece it contains, and also in the tick in which the player goes out. |
| Replay.RunReplays | Server/Rooms/TetrisRoomPackets.cpp:7-79 | After any run of ticks that leaves the player in the game the client shows exactly the server's occupied cells and the server's piece, kind, rotation and position. |
| Replay.GameReplays | Server/Rooms/MultiRoom.cpp:297-320 | The same from the start of a game on an empty grid. |
| Replay.ClearsInStep | client/tetris/game/tetris_board.py:134-137 | Several rows cleared by one lock, replayed one by one, give the board with all of them gone. |
| Replay.FixMirrors | client/tetris/game/tetris_board.py:121-132 | The client takes the position from the FIX packet, so it need not have seen the moves of a hard drop. |
| Replay.AddMirrors | client/tetris/game/tetris_board.py:145-150 | One garbage packet is one pushed line, with or without a piece in hand. |
| Packets.RoundTrip | Server/Packets/game_packets.h:11-53 | What the client unpacks is what the server packed, field by field, up to the widths of the fields. |
| Packets.WireLayout | Server/Packets/game_packets.h:11-53 | The records byte by byte: size with the low byte first, type code, id, and the fields in order. |
| Packets.LittleEndian | Server/Packets/game_packets.h:13 | A 32-bit field is sent low byte first. |
| Packets.TaskBytes | Server/Rooms/TetrisRoomPackets.cpp:45-120 | The bytes every task is sent as, with literal sizes, type codes and move codes. |
| Packets.WrapInt | Server/Packets/game_packets.h:13 | What a 32-bit field makes of any number: the one number in its range that is the same modulo 2 to the 32. |
| Packets.WrapChar | Server/Packets/game_packets.h:20-22 | What a signed byte makes of any number: the one number in its range that is the same modulo 256. |
| PacketBound.SizeIsEncodedLength | Server/Rooms/TetrisRoomPackets.cpp:45-120 | The size a list of tasks is charged with is the number of bytes it takes on the wire. |
| PacketBound.InputsCost | Server/Game/Tetris.cpp:252-270 | What the inputs of a tick can add is at most three sideways moves and one step or one lock with four cleared rows. |
| PacketBound.GarbageCost | Server/Game/Tetris.cpp:145-170 | A garbage line costs at most sixteen bytes. |
| PacketBound.TickBytes | Server/Rooms/MultiRoom.cpp:345-377 | One player's tick in a multi-player room takes at most 375 bytes, whatever happens in it. |
| RoomPackets.RoomTickFits | Server/Rooms/MultiRoom.cpp:430-473 | The garbage handed round in a room of at most five keeps every player within 1 + 4*4 lines, and so every player's tick within 375 bytes. |
| RoomPackets.DistributeGarbageLines | Server/Rooms/MultiRoom.cpp:430-446 | Every player in the game receives what all players in the game send together less their own lines; players who are out get nothing. |
| RoomPackets.EverybodyElsesLines | Server/Rooms/MultiRoom.cpp:435-441 | For every player in the game the received lines and the player's own lines add up to the total of all players in the game. |
| RoomPackets.GarbageLines | Server/Rooms/MultiRoom.cpp:448-473 | No lines for one row, one for two, two for three, four for four, none otherwise. |
| RoomPackets.AttacksBound | Server/Rooms/MultiRoom.cpp:430-473 | At most four lines from each other player, and none for a player who is out. |
| RoomPackets.Player.AddToSendBuffer | Server/Game/Player.cpp:89-97 | Bytes that fit are appended, others are refused and leave the buffer as it was. |
| RoomPackets.Player.ClearSendBuffer | Server/Game/Player.cpp:99-103 | The buffer is empty. |
| RoomPackets.Player.AppendTasks | Server/Rooms/TetrisRoomPackets.cpp:133-136 | All packets go in exactly if together they fit; otherwise the longest prefix that does. A game-over packet puts the player out and does not stop the ones behind it. |
| RoomPackets.AppendTickPackets | Server/Rooms/TetrisRoomPackets.cpp:123-139 | Every connected player in the game gets its packets; at the first buffer that overflows that slot is returned and the slots behind it are left alone. |
| RoomPackets.SendToAll | Server/Rooms/TetrisRoomPackets.cpp:155-159 | One more send of the same bytes to every slot with a session, and to no other. |
| RoomPackets.SendBatches | Server/Rooms/TetrisRoomPackets.cpp:141-173 | The loop over one byte array of 2048 sends every connected slot exactly the batches of the slots' buffers. |
| RoomPackets.BroadcastPackets | Server/Rooms/TetrisRoomPackets.cpp:141-180 | The same, and the buffers the bytes came from are empty afterwards. |
| RoomPackets.BatchingKeepsStream | Server/Rooms/TetrisRoomPackets.cpp:182-203 | Everybody receives the byte stream the older broadcast, one send per player, gave them. |
| RoomPackets.BatchesAreWhole | Server/Rooms/TetrisRoomPackets.cpp:154-164 | No batch is empty or over 2048 bytes, no player's buffer is split over two, and no two neighbouring batches would have fitted into one. |
| RoomPackets.SendTick | Server/Rooms/MultiRoom.cpp:361-372 | With at most five players within the bound, building packets never fails and every connected slot gets the whole tick in a single send. |
| Framing.ParseIsExact | Server/Threads/IO/IOThread.cpp:110-128 | Parsing loses and invents nothing, every packet found is well formed, and what is left over is less than one frame. |
| Framing.ParseAppend | client/tetris/net/packet_manager.py:38-67 | Bytes that arrive later never change what was found, and are read as if the leftover and they were one stream. |
| Framing.ParseOfFrames | Server/Threads/IO/IOThread.cpp:110-128 | A stream of well-formed frames is found frame by frame, whatever follows. |
| Framing.AnyChunking | client/tetris/net/packet_manager.py:35-67 | For every chunking of a stream the packets found are those of the whole stream read at once. |
| Framing.LimitsAgree | Server/Threads/IO/IOThread.cpp:113-118 | The server's bounded parser and the client's unbounded one find the same packets and the same leftover, unless the server meets an impossible size; up to there they agree. |
| Framing.Receiver.ProcessRecvBuffer | Server/Threads/IO/IOThread.cpp:94-133 | In place on the 2048-byte buffer: the packets of all bytes at hand go to the queue in order, the leftover moves to the front, an impossible size or count asks for a disconnect, and a refused task stops reading with the unread packets kept. |
| Framing.Receiver.EnqueuePackets | Server/Threads/IO/IOThread.cpp:108-128 | The offset loop enqueues as many packets as the session accepts and stops where the parse does. |
| Framing.Receiver.DropFront | Server/Threads/IO/IOThread.cpp:130-131 | Exactly the bytes behind the offset are left, at the front. |
| Framing.Receiver.Arrive | Server/Network/Session.cpp:93-95 | A receive writes behind the leftover. |
| Framing.Receiver.ReceiveAll | Server/Threads/IO/IOThread.cpp:81-92 | Over all receives of a session the queue ends up with the packets of the whole stream, and a disconnect is asked for exactly if the stream has an impossible size. |
| Framing.NextReceiveAsksForSomething | Server/Network/Session.cpp:93-95 | While a session may go on receiving, its leftover is below 2048 bytes, so the next receive asks for at least one. |
| Framing.PacketManager.MergePacket | client/tetris/net/packet_manager.py:35-36 | The bytes are appended. |
| Framing.PacketManager.ProcessPacket | client/tetris/net/packet_manager.py:38-67 | The complete packets are unpacked into the queue and the rest stays; an exception leaves the buffer as it was, with the packets in front of the offending one already queued. |
| Framing.RecvLoop | client/tetris/net/network.py:47-58 | The receive loop over any chunks: the queue ends up with the packets of the whole stream up to the first one that cannot be unpacked, and an exception ends the loop exactly if there is one or an impossible size. |
| EndToEnd.StreamArrives | client/tetris/net/packet_manager.py:19-67 | A client that has heard the bytes of some packets has queued exactly those packets, narrowed to their fields, with nothing left over and no exception. |
| EndToEnd.TickStream | Server/Rooms/TetrisRoomPackets.cpp:141-180 | The bytes of the slots put together are the encoded packets of the tick, slot by slot. |
| EndToEnd.WrapIsHarmless | client/tetris/game/tetris_session.py:157-186 | What the wire narrows does not matter to a board. |
| EndToEnd.DispatchedToOne | client/tetris/states/multi_play_state.py:262-269 | Packets of one player move that player's board and no other. |
| EndToEnd.TickFollows | client/tetris/states/multi_play_state.py:262-269 | The packets of one room tick, dispatched one by one, leave every board following its player. |
| EndToEnd.StartDispatched | Server/Rooms/MultiRoom.cpp:310-322 | The first pieces of a game, told to new clients, leave every board following its player. |
| EndToEnd.StartPacketShows | Server/Rooms/MultiRoom.cpp:310-322 | The bytes of a first piece, and that a new client shows it at (3, 0) with the next kind in the preview. |
| EndToEnd.ClientFollowsServer | client/tetris/game/tetris_session.py:157-186 | Any game of a room from its start: a client that has heard its bytes raises nothing, has nothing left over, and shows for every player still in the game exactly the server's occupied cells and piece. |
| GameRoom.StartGame | Server/Rooms/MultiRoom.cpp:299-322 | Every connected player gets an empty board and the first piece, and is told of everybody's. |
| GameRoom.SendFirstPieces | Server/Rooms/MultiRoom.cpp:310-322 | Every connected player is sent the encoded first pieces of all who take part, in slot order. |
| GameRoom.DistributeLines | Server/Rooms/MultiRoom.cpp:430-446 | Every board owes the lines the others have cleared in this tick. |
| GameRoom.AttacksFit | Server/Rooms/MultiRoom.cpp:430-446 | The lines handed round by the boards in place are those of the games, whoever has left. |
| GameRoom.RunPhases | Server/Rooms/MultiRoom.cpp:349-361 | Inputs, lines handed round, garbage and spawns, phase by phase over all players, take every board to exactly its player's tick. |
| GameRoom.PacketsFit | Server/Rooms/TetrisRoomPackets.cpp:123-139 | No player's packets of a tick outgrow 375 bytes. |
| GameRoom.SendPackets | Server/Rooms/TetrisRoomPackets.cpp:123-180 | Every connected player is sent exactly the encoded packets of the tick, and exactly those who are sent a game over are out. |
| GameRoom.ProcessGameTick | Server/Rooms/MultiRoom.cpp:345-377 | One tick of a room in place: boards and players are where the tick takes their games, and every connected player is sent the encoded packets of the tick. |
| GameRoom.PlayTick | Server/Rooms/TetrisRoom.cpp:284-312 | Whoever has left gets nothing of the next tick and counts as out; the others are sent its encoded packets. |
| GameRoom.PlayGame | Server/Rooms/MultiRoom.cpp:292-377 | A whole game in place, from its start over any run of ticks, with players leaving between them: everybody who stays is sent the encoded packets of the game and nothing else. |
| GameRoom.WatchGame | client/tetris/net/network.py:47-58 | The whole way: the room plays, players leaving as they like; its bytes reach a player who stays, cut up in any way; the client's loop reads them without an exception or leftover, and dispatching what it queued shows, for every player still in the game, exactly the cells and the piece of the board on the server. |
| PieceBag.KindReturnsSoon | Server/Rooms/TetrisRoom.cpp:361-371 | In every list made of shuffled bags two consecutive occurrences of a kind are at most 13 positions apart. |
| PieceBag.EveryPlayerReadsTheList | Server/Rooms/TetrisRoomPackets.cpp:10-13 | Whatever the order of locks and whatever bags are drawn, every index stays inside the list with one entry to spare, the list only grows, and each player is dealt exactly the list from their own position on. |
| PieceBag.NoBagTooEarly | Server/Rooms/TetrisRoom.cpp:361-371 | No bag is drawn before somebody has reached the last kind but one: over any spawns the list is never longer than the player furthest on needs. |
| PieceBag.SpawnList.AppendTetromino7Bag | Server/Rooms/TetrisRoom.cpp:361-371 | The shuffled bag goes to the end of the list. |
| PieceBag.SpawnList.Spawn | Server/Rooms/TetrisRoomPackets.cpp:10-13 | One player's index moves on, over a new bag if the list would run out, and both entries that are read exist. |
| Ranking.RankingManager.SortAndTrim | Server/Managers/RankingManager.cpp:11-15 | The list is sorted by score and cut at ten. |
| Ranking.RankingManager.InitRanking | Server/Managers/RankingManager.cpp:17-22 | The loaded rows, sorted and cut. |
| Ranking.RankingManager.UpdateRanking | Server/Managers/RankingManager.cpp:24-46 | A listed player's score is raised, an unlisted one joins; then the list is sorted and cut. |
| Ranking.SortedIsPermutation | Server/Managers/RankingManager.cpp:13 | Sorting loses and invents no row. |
| Ranking.TrimTracks | Server/Managers/RankingManager.cpp:11-22 | Sorting and cutting keep a true top ten. |
| Ranking.UpdateTracks | Server/Managers/RankingManager.cpp:24-46 | A score update keeps the list a true top ten of all players' best scores. |
| Ranking.NamesAreKept | Server/Managers/RankingManager.cpp:24-46 | After an update the player is listed under the new name, and nobody else's entry has changed. |
| Ranking.PlaceIsRank | Server/Managers/RankingManager.cpp:24-46 | Place k holds a score of at least v exactly when more than k players have one. |
| Ranking.RankingAfterScores | Server/Managers/RankingManager.cpp:24-46 | After any sequence of updates from a true top ten the list holds the ten largest best scores in order, no player twice, and everybody while there are fewer than ten. |
| TaskQueue.RunKeepsCount | Server/Common/ConcurrentTaskQueue.h:15-42 | Under any interleaving of producers and claimants the count and the open claims together equal the queued items and the enqueues in progress, and tasks come out once each, in the order they were pushed. |
| TaskQueue.ClaimedItemArrives | Server/Common/ConcurrentTaskQueue.h:37-42 | A dequeue backed by a claim never waits in vain: if the queue is empty some thread is in the middle of an enqueue, and its push lets the dequeue go on. |
| TaskQueue.QueueCanBeEmptied | Server/Common/ConcurrentTaskQueue.h:15-43 | One claim takes everything that is counted, and the claimed tasks come out to the last one, in the order of the pushes. |
| TaskQueue.ConcurrentTaskQueue.Enqueue | Server/Common/ConcurrentTaskQueue.h:15-19 | Count and queue grow together. |
| TaskQueue.ConcurrentTaskQueue.ClaimTaskCount | Server/Common/ConcurrentTaskQueue.h:21-24 | The whole count is taken and zero is left. |
| TaskQueue.ConcurrentTaskQueue.RestoreClaimedTaskCount | Server/Common/ConcurrentTaskQueue.h:26-30 | Unused claims go back. |
| TaskQueue.ConcurrentTaskQueue.Dequeue | Server/Common/ConcurrentTaskQueue.h:37-42 | The oldest task comes out. |
| TaskQueue.ProcessTasks | Server/Threads/Lobby/LobbyThread.cpp:46-61 | The consumer loop of the lobby and of a room: handled, discarded and remaining tasks are in this order the tasks that were there, the count is exact again, and nothing is discarded unless a handled task was a disconnect, in which case nothing remains. |
| TaskQueue.DiscardRest | Server/Threads/Lobby/LobbyThread.cpp:49-53 | The claimed tasks and all that came after them are gone. |
| TaskQueue.TasksHandledInOrder | Server/Rooms/TetrisRoom.cpp:193-208 | Over a session's life, across any alternation of lobby and room consumers, accepted tasks are handled once each in the order they were accepted, and discarded only after a disconnect has begun. |
| PhaseBarrier.StepKeeps | Server/Threads/Game/GameThread.cpp:19-58 | Every single load, store, exchange and compare-and-swap of the phase protocol keeps its invariant. |
| PhaseBarrier.InvGivesBarrier | Server/Threads/Game/GameThread.cpp:36-48 | Once a thread scans rooms, every lifecycle task its phase claimed has been taken and nobody of the phase is still at one. |
| PhaseBarrier.PhasesAreOrdered | Server/Threads/Game/GameThread.cpp:19-58 | For any number of threads, overlapping phases and interleaving: lifecycle work of two phases never overlaps, no thread looks at rooms before its phase's lifecycle tasks are done, no room is ticked by two threads or while it is being built, and lifecycle tasks start once each in the order they were accepted. |
| PhaseBarrier.DrawnTaskIsThere | Server/Threads/Game/GameThread.cpp:36-37 | A thread that has drawn an index below the count finds a task, an enqueue being one step here. |
| PhaseProgress.SomebodyGoesOn | Server/Threads/Game/GameThread.cpp:19-58 | No deadlock: in every state that keeps the invariants, while any thread is away some thread can take its next step home. |
| PhaseProgress.StepKeepsLive | Server/Threads/Game/GameThread.cpp:19-58 | Whoever waits waits for somebody: for the one who prepares the phase, the last one to finish it, or the one who has the flag. |
| PhaseProgress.PhasesCanFinish | Server/Threads/Game/GameThread.cpp:19-58 | From any state any interleaving leads to, some steps bring every thread home, with every phase that called somebody complete, every claimed task taken and the flag down. |
| PhaseProgress.EveryTaskCanBeStarted | Server/Threads/Game/GameThread.cpp:19-58 | From any such state some steps start every lifecycle task that has been accepted. |
| PhaseProgress.RoomIsTicked | Server/Threads/Game/GameThread.cpp:46-54 | A scanning thread takes an idle room, and no other, and gives it back idle. |
| Disconnect.NothingRegisteredAfterBegin | Server/Network/Session.cpp:54-104 | From the moment a disconnect begins, in any interleaving, no send or receive is registered. |
| Disconnect.ExactlyOneWinner | Server/Network/Session.cpp:158-180 | At most one BeginDisconnect or CompleteIO call returns true; and once a disconnect has begun, all completions have arrived and all calls have returned, exactly one has and nothing is pending. |
| Disconnect.CountCoversCompletions | Server/Network/Session.cpp:173-176 | A completion always finds a positive count. |
| Disconnect.PendingNeedNotBeZero | Server/Network/Session.cpp:176-179 | A concrete interleaving in which DISCONNECTING is reached with a send still pending. |
| Disconnect.HazardExactly | Server/Network/Session.cpp:176-179 | Once a disconnect has begun, DISCONNECTING can be reached with I/O pending if and only if some thread stands between its decrement to zero and its swap while the count is positive. |
| Disconnect.AtomicCompletionLeavesNothing | Server/Network/Session.cpp:173-180 | With the decrement and the swap as one step, DISCONNECTING means that nothing is pending or in flight. |
| SlotReuse.LateStepChangesExactly | Server/Network/Session.cpp:173-180 | A completion that arrives after its slot was freed changes nothing; one that was past its key check changes the next occupant exactly when it counts down, or swaps while that occupant waits for its own I/O. |
| SlotReuse.StragglersComeFromReuse | Server/Network/Session.cpp:10-34 | There are such completions exactly when the slot is taken while some completion is past its key check. |
| SlotReuse.CaughtExactly | Server/Network/Session.cpp:173-180 | While an occupant of a slot that was taken cleanly waits for its I/O, its slot can come to be freed with one of its completions past the key check if and only if there are two threads, and some call has still to swap while I/O is pending or another completion has counted down to zero. |
| SlotReuse.RiskComesTrue | Server/Network/Session.cpp:158-180 | Every such risk comes true: steps that lead to the freed slot, whether the completion that is caught has still to count down or only to swap. |
| SlotReuse.WaitingStays | Server/Network/Session.cpp:158-180 | Without the risk no step creates it, and a swap leaves no completion past its key check. |
| SlotReuse.CleanReuseIsSafe | Server/Network/Session.cpp:193-212 | If no completion is past its key check whenever the slot is taken, then in every interleaving every occupant's count is exact, one call returns true for its disconnect, with its own key and only when due, and an occupant that still waits has I/O to wait for or a call that will still swap. |
| SlotReuse.NeverAnnouncedEarly | Server/Network/Session.cpp:158-191 | Whatever late completions do, nobody has announced the disconnect of an occupant that is active or waits for its I/O. |
| SlotReuse.OccupantIsAsOne | Server/Network/Session.cpp:54-180 | While nobody is late, an occupant goes through exactly the steps of Disconnect, so its theorems hold of every occupant. |
| SlotReuse.CountIsNeverTooHigh | Server/Network/Session.cpp:173-176 | In every interleaving the count of a slot in use is at most the I/O of its occupant that is under way or in hand. |
| SlotReuse.LateDecrementHappens | Server/Network/Session.cpp:174-176 | A concrete run after which the next occupant's count is zero although a receive is under way. |
| SlotReuse.LateSwapHappens | Server/Network/Session.cpp:178-179 | A concrete run after which an occupant in no room is disconnecting with all its I/O done, and nobody has announced it. |
| SlotReuse.UnannouncedExactly | Server/Rooms/MultiRoom.cpp:229-250 | A disconnect that is complete and was not announced can still lead to a free slot if and only if the session is in a room as a player who can be kicked: on removing it the room announces the disconnect (TetrisServer.cpp:293-298). |
| SlotReuse.NobodyAnnounces | Server/Core/TetrisServer.cpp:293-298 | Otherwise, in no room or as the host of one, the slot is never freed, whatever follows. |
| Rooms.RoomLife | Server/Rooms/TetrisRoom.cpp:266-336 | Over a room's life, whatever the sessions do: tasks take effect once each in the order they were accepted, the player count is the number of occupied slots, deletion is requested at most once, and from then on the room is empty with nothing queued or waiting. |
| Rooms.TriedKeeps | Server/Rooms/TetrisRoom.cpp:212-264 | An attempt changes players, state and notices only, and one that has to wait changes nothing. |
| Rooms.AttemptKeeps | Server/Rooms/TetrisRoom.cpp:266-280 | A task that is done is the next one in order; one that is not is kept as the waiting task, with nothing else changed. |
| Rooms.ProcessKeeps | Server/Rooms/TetrisRoom.cpp:266-282 | A whole drain keeps order, count and the deletion rules. |
| Rooms.RemovedKeeps | Server/Rooms/MultiRoom.cpp:145-175 | Removing a player keeps the count exact, leaves no slot with the key, and the last one to go closes the room. |
| Rooms.JoinedKeeps | Server/Rooms/MultiRoom.cpp:53-81 | A join is let in exactly if the password fits, the room is waiting, the player is not yet in it and a slot is free; then the count grows by one. |
| Rooms.PostKeeps | Server/Rooms/TetrisRoom.cpp:328-336 | Deletion is requested only with no slot occupied and no task queued or waiting. |
| RoomEffects.KickTask | Server/Rooms/MultiRoom.cpp:229-250 | A kick by the host takes exactly the target out: everybody else keeps their slot, the host stays, the lobby is told of the target alone; it waits while one of the two sessions is busy, and any other kick changes nothing. |
| RoomEffects.JoinTask | Server/Rooms/TetrisRoom.cpp:246-264 | The lobby is told exactly whether the player got in: a live lobby session the room lets in takes the first free slot; everybody else is turned away with nothing changed; a busy session waits. |
| RoomEffects.JoiningIsExact | Server/Rooms/MultiRoom.cpp:53-81 | Who is let in, and that only the first free slot and the count change. |
| RoomEffects.RemovalIsExact | Server/Rooms/MultiRoom.cpp:145-175 | Only the player's slot is freed; the last one closes the room; the host changes only if it was the host who went, to the first active player left whose session is found. |
| RoomEffects.SingleRemovalIsExact | Server/Rooms/SingleRoom.cpp:162-181 | The player of a single-player room leaves it empty and closing. |
| RoomEffects.LeavingIsExact | Server/Rooms/TetrisRoom.cpp:80-89 | Exactly an active player leaves, and the lobby is told of exactly this one. |
| RoomEffects.RemovalTask | Server/Rooms/MultiRoom.cpp:135-143 | A live player goes to the lobby, one whose session is gone or dying is just removed, a busy session waits. |
| RoomEffects.GameTasks | Server/Rooms/MultiRoom.cpp:252-290 | A game starts exactly if the room is waiting and its one player asks, or its host does with everybody ready and somebody to play against; it is given up only in a single-player room. |
| RoomEffects.ProcessingFinishes | Server/Rooms/TetrisRoom.cpp:266-282 | A drain stops only at a task that has to wait; with no busy session every accepted task has taken effect and a closing room has asked to be deleted. |
| RoomEffects.SecondPlayer | Server/Rooms/TetrisRoom.cpp:246-264 | Into a room that has just been opened the next player comes in behind the host, and the lobby is told. |
| RoomEffects.HostLeaves | Server/Rooms/MultiRoom.cpp:505-533 | A host who leaves hands the room to the player who stays. |
| Rooms.NewHost | Server/Rooms/MultiRoom.cpp:505-533 | The key of the first active slot, by index, whose session is found; none exactly if there is no such slot. |
| Rooms.TetrisRoom.AddRoomTask | Server/Rooms/TetrisRoom.cpp:161-168 | A task is accepted exactly while the room waits or plays, and goes to the end of the queue. |
| Rooms.TetrisRoom.FindPlayer | Server/Rooms/TetrisRoom.cpp:61-68 | The first slot with the key. |
| Rooms.TetrisRoom.FindNewHost | Server/Rooms/MultiRoom.cpp:505-533 | The first active slot whose session is found. |
| Rooms.TetrisRoom.ClearRoom | Server/Rooms/TetrisRoom.cpp:388-403 | All slots are free and the count is zero. |
| Rooms.TetrisRoom.CompletePlayerRemoval | Server/Rooms/MultiRoom.cpp:145-175 | The slot is free, the count one less, the host passed on, and the room closing if that was the last player; a single room is cleared and closes (SingleRoom.cpp:162-181). |
| Rooms.TetrisRoom.RequestLobbyTransition | Server/Rooms/TetrisRoom.cpp:80-89 | An active player's slot is given up and the lobby is told; anyone else changes nothing. |
| Rooms.TetrisRoom.RemovePlayer | Server/Rooms/MultiRoom.cpp:135-143 | A live session leaves for the lobby; a dead one is just removed. |
| Rooms.TetrisRoom.AddPlayer | Server/Rooms/MultiRoom.cpp:53-81 | The first free slot is taken if the join is let in. |
| Rooms.TetrisRoom.KickPlayer | Server/Rooms/MultiRoom.cpp:229-250 | Only the host kicks, never itself; a busy target has to wait; what a kick that is done does is RoomEffects.KickTask. |
| Rooms.TetrisRoom.ProcessSpecificRoomTask | Server/Rooms/MultiRoom.cpp:325-343 | Kick, start and, in a single room, give up. |
| Rooms.TetrisRoom.TryProcessJoinTask | Server/Rooms/TetrisRoom.cpp:246-264 | A join ends with exactly one result for the lobby, unless the session is busy. |
| Rooms.TetrisRoom.TryProcessRoomTask | Server/Rooms/TetrisRoom.cpp:212-244 | One attempt, with every early exit of the source. |
| Rooms.TetrisRoom.TryPostRoomDelete | Server/Rooms/TetrisRoom.cpp:328-336 | Posts exactly if the room is closing and the queue is empty. |
| Rooms.TetrisRoom.ProcessRoomTasks | Server/Rooms/TetrisRoom.cpp:266-282 | The waiting task first, then all claimed tasks until one has to wait, the rest of the claim given back; then the deletion. |
| Ownership.NeverTwoOwners | Server/Threads/Managers/LobbyThreadManager.cpp:456-521 | In every reachable state, with lobby, room and lifecycle tasks taken in any order, no session is both worked on by the lobby and in a room, nor in two rooms, and a player in a room is a current session in that room's mode. |
| Ownership.NeverOrphaned | Server/Threads/Managers/LobbyThreadManager.cpp:456-521 | If the lobby takes its tasks in order, those of a busy session going to the back, every active session is owned by the lobby, owned by one room, or carried by exactly one task that brings it to an owner. |
| Orphans.OrphanedExactly | Server/Threads/Managers/LobbyThreadManager.cpp:486-515 | Lobby tasks in any order: a step leaves an active, owned session without any owner or carrier if and only if it is the session's arrival in the lobby while the news of its entry into the room is still queued. |
| Orphans.OwnedOrOrphan | Server/Threads/Managers/LobbyThreadManager.cpp:456-521 | A live session has exactly one owner or carrier, or none at all. |
| Orphans.OvertakingOrphans | Server/Threads/Managers/LobbyThreadManager.cpp:486-515 | A concrete out-of-order run that leaves an active session with no owner and nothing in flight. |
| Orphans.OrphanForever | Server/Core/TetrisServer.cpp:133-141 | Whatever follows, an orphan stays one: nobody takes its tasks, so it is never disconnected, its slot never becomes free, and a login with its account changes nothing. |
| Ownership.SlotReuseIsSafe | Server/Core/TetrisServer.cpp:300-336 | In every reachable state no lobby entry, room slot, account or queued session task has the key of a session that is gone, and no account is logged in with two sessions. |
| Ownership.LateTasksAreHarmless | Server/Network/Session.cpp:144-150 | A task, a registration or a completion with an old key that arrives late changes no session, entry, room or account; completions past their key check are SlotReuse.LateStepChangesExactly. |
| Ownership.StepKeeps | Server/Threads/Managers/LobbyThreadManager.cpp:456-521 | Every step of accepting, logging in, moving between lobby and rooms, disconnecting and deleting keeps the account of where each session is. |
| Ownership.ArrivalIsTold | Server/Rooms/TetrisRoom.cpp:80-89 | In order, when a session's arrival is first in the queue, the lobby has already been told that it had left. |
| Ownership.DeleteRunRest | Server/Threads/Managers/GameThreadManager.cpp:265-273 | Only a room that has asked for it, and is empty, is deleted. |
| Ownership.FinalizedRest | Server/Core/TetrisServer.cpp:327-334 | A session that leaves for good is in no room, and its account goes with it. |
| Ownership.OneAccountOneSession | Server/Managers/ActivePlayerManager.cpp:4-13 | Two live sessions never share an account. |
| Journeys.ArrivalJourney | Server/Core/TetrisServer.cpp:222-234 | A connection that gets a free slot is let into the lobby under a new key. |
| Journeys.LoginJourney | Server/Managers/ActivePlayerManager.cpp:4-13 | A login under an unused account makes the session ready in the lobby; any other changes nothing. |
| Journeys.JoinJourney | Server/Threads/Managers/GameThreadManager.cpp:80-100 | From an open room and a ready session a join request that is admitted ends with the session in the room, in that room's mode, and the success in the lobby's queue; everything else is as it was. |
| Journeys.RefusedJourney | Server/Threads/Managers/GameThreadManager.cpp:93-98 | A join that meets a closed room, or is turned away, ends with the session back in the lobby and nothing changed. |
| Journeys.CreationJourney | Server/Threads/Managers/GameThreadManager.cpp:102-148 | A creation that succeeds opens a room with this one player; one that fails changes nothing. |
| Journeys.LeavingJourney | Server/Rooms/TetrisRoom.cpp:80-89 | A player who leaves is ready in the lobby again; the last one leaves the room closing. |
| Journeys.ThereAndBack | Server/Threads/Managers/LobbyThreadManager.cpp:456-521 | Joining a room with other players, being told, leaving and being taken back leaves every session, entry, room, account and queue as it was. |
| Journeys.LateNews | Server/Threads/Managers/LobbyThreadManager.cpp:470-485 | News of a session that is gone empties its entry, whatever became of the transition, and does nothing else. |
| Journeys.CountedBack | Server/Network/Session.cpp:66-74 | I/O registered and completed, or a task queued and run, leaves a session as it was; a key whose session is gone is refused all of them. |
| Journeys.CompletionsEnd | Server/Core/TetrisServer.cpp:286-291 | Of the completions of what was pending only the last one tells the lobby. |
| Journeys.LobbyDisconnectJourney | Server/Core/TetrisServer.cpp:300-336 | From the lobby to the end: slot, entry and account are free and nothing is left behind. |
| Journeys.RoomDisconnectJourney | Server/Core/TetrisServer.cpp:300-336 | The same from a room, whose player's place is given up as well. |
| Journeys.RoomEndJourney | Server/Threads/Managers/GameThreadManager.cpp:265-273 | A closing room with nothing queued is deleted and its index free again. |
| Departure.DisconnectIsCarriedOn | Server/Core/TetrisServer.cpp:281-336 | In every reachable state, tasks taken in any order and a completion or the beginning of a disconnect being one step each: a session is to be freed if and only if a task in flight carries its disconnect on, and then no I/O is pending; one that still waits has I/O pending; and one in room mode is in its room. |
| Departure.DisconnectCanFinish | Server/Core/TetrisServer.cpp:285-336 | From every reachable state, with the same one-step completions, a disconnect that has begun can be brought to its end: some steps free the slot. |
| Departure.BegunServes | Server/Core/TetrisServer.cpp:140-144 | A disconnect begins where the session is worked on, in the lobby or in its own room, so it is never between the two. |
| Departure.StepServes | Server/Core/TetrisServer.cpp:285-336 | Every step keeps the account of disconnects: none queued before it is due, at most one for a session of a room, which is in that room, and at least one for any other that is to be freed. |
| Departure.DisconnectServes | Server/Core/TetrisServer.cpp:300-336 | One disconnect task hands the disconnect to the room that has the player, or frees the slot. |
| Departure.OthersUnaffected | Server/Rooms/TetrisRoom.cpp:212-244 | A step of any other session's, or a removal of a player whom the room does not have, changes nothing that this session's disconnect depends on. |
| Server.LobbySession.TryPrepare | Server/Lobby/LobbySession.cpp:13-20 | An empty entry becomes pending for the key; any other is left alone. |
| Server.LobbySession.TrySetPending | Server/Lobby/LobbySession.cpp:22-27 | Only the key's own active entry goes pending. |
| Server.LobbySession.Activate | Server/Lobby/LobbySession.cpp:29-34 | Only the key's own pending entry becomes active. |
| Server.LobbySession.Clear | Server/Lobby/LobbySession.cpp:36-47 | Only the key's own entry is emptied. |
| Server.SessionSlot.InitSession | Server/Network/Session.cpp:10-37 | A free slot becomes an active session at login; a used one is left alone. |
| Server.SessionSlot.ApplyLoginResult | Server/Network/Session.cpp:39-52 | Only an active session at login gets an account and moves to the lobby. |
| Server.SessionSlot.TrySetRoomMode | Server/Network/Session.cpp:302-312 | Only an active lobby session with the key enters a room. |
| Server.SessionSlot.TrySetLobbyMode | Server/Network/Session.cpp:292-300 | Only an active session of a room with the key returns to the lobby. |
| Server.SessionSlot.Register | Server/Network/Session.cpp:66-74 | I/O is registered exactly while the session is active. |
| Server.SessionSlot.BeginDisconnect | Server/Network/Session.cpp:158-171 | Undisturbed, it returns true exactly when nothing is pending, and the session is no longer active whenever the key was its own. |
| Server.SessionSlot.CompleteIO | Server/Network/Session.cpp:173-180 | Undisturbed, it counts down once and returns true exactly for the last completion of a session being disconnected. |
| Server.SessionSlot.CompleteRoomRemoval | Server/Network/Session.cpp:182-191 | A session being disconnected leaves room mode, and true means that only this was missing. |
| Server.SessionSlot.TryEnqueueTask | Server/Network/Session.cpp:214-222 | Accepted exactly while the session is active and the key its own. |
| Server.SessionSlot.DiscardTasks | Server/Network/Session.cpp:224-228 | No task is left. |
| Server.SessionSlot.FinalizeDisconnect | Server/Network/Session.cpp:193-212 | Only a disconnecting session with the key is freed. |
| Server.TetrisServer.AcquireSession | Server/Core/TetrisServer.cpp:222-234 | The first free slot takes the session and the lobby is told; with none free nothing happens. |
| Server.TetrisServer.AddPlayer | Server/Managers/ActivePlayerManager.cpp:4-13 | An account that is logged in, or a session not at login, is refused. |
| Server.TetrisServer.RemovePlayer | Server/Managers/ActivePlayerManager.cpp:15-24 | Only the session that holds the account gives it up. |
| Server.TetrisServer.BeginRoomTransition | Server/Threads/Managers/LobbyThreadManager.cpp:85-91 | Succeeds exactly for an active lobby session with its entry active. |
| Server.TetrisServer.TryJoinRoom | Server/Threads/Managers/GameThreadManager.cpp:80-100 | The entry goes pending. An open room gets the join task and the lobby's queue stays; otherwise the lobby gets the failure and the other queues stay. A missing room, one for a single player and a session that is not ready are refused, with nothing queued. |
| Server.TetrisServer.ProcessTask | Server/Threads/Managers/LobbyThreadManager.cpp:456-521 | The first lobby task has exactly the effect of its step, or goes to the back of the queue if its session is busy. |
| Server.TetrisServer.ProcessAddSession | Server/Threads/Managers/LobbyThreadManager.cpp:461-469 | A new session gets its entry, unless it is gone or on its way out. |
| Server.TetrisServer.ProcessTransitionResult | Server/Threads/Managers/LobbyThreadManager.cpp:470-485 | Success empties the entry; failure gives the session back to the lobby. |
| Server.TetrisServer.ProcessEnterLobby | Server/Threads/Managers/LobbyThreadManager.cpp:486-516 | Room mode, room index and an empty entry all have to fit before the lobby takes the session; a busy session has to wait. |
| Server.TetrisServer.FinalizeDisconnect | Server/Core/TetrisServer.cpp:300-336 | Done, or to be tried again: every branch of the source, the busy one included. |
| Server.TetrisServer.CompleteRoomDisconnect | Server/Core/TetrisServer.cpp:293-298 | The session is out of its room, and the disconnect goes on if it was waiting for that. |
| Server.TetrisServer.ProcessJoinTask | Server/Rooms/TetrisRoom.cpp:246-264 | The join of a session that is still in the lobby succeeds or fails, and the lobby is told. |
| Server.TetrisServer.ProcessCreateTask | Server/Threads/Managers/GameThreadManager.cpp:102-148 | A room is created at the first free index, or the creation fails. |
| Server.TetrisServer.RemovePlayerFromRoom | Server/Rooms/MultiRoom.cpp:145-175 | The slot is given up, a dying session is let go, and a living one is announced to the lobby. |
| Server.TetrisServer.ProcessDisconnect | Server/Core/TetrisServer.cpp:140-144 | A consumer takes the session's disconnect: its other tasks go, and the lobby is told if no I/O is pending. |
| Server.TetrisServer.CompleteSessionIO | Server/Core/TetrisServer.cpp:286-291 | A completion counts for the session that has its key and for nobody else; the last one of a session being disconnected tells the lobby. |
| Server.TetrisServer.EnqueueSessionTask | Server/Core/TetrisServer.cpp:114-121 | A task is accepted exactly for an active session with the key. |

## Left out

- Test mode: it puts the server's piece back without telling the client (TetrisRoom.cpp:445).
- The choice of a winner, match records and the reset of a room after GAME_END: only whether a game has ended is an input of a tick, and `GameRoom` runs the ticks before it.
- The start packets of a game (S2C_MULTI_START, S2C_SINGLE_START): the stream of `GameRoom` begins with the first pieces.
- Score and combo: carried in packets, displayed only, and computed by a table.
- The order of players with equal scores in the ranking: a sort need not be stable, so only scores are claimed.
- The client's game-over animation, sounds, textures and layout: nothing but the occupied cells, the current piece and the next kind.
- The client's queue limit of 1024 packets: the network thread waits for room in it, and the model's queue is unbounded.
- S2C_MESSAGE and other packets outside the game: the registry is not modelled beyond the seven in-game types, so to the model they are unknown.
- Chat, friends, room lists, rankings requests and nickname buffers: no state of theirs takes part in a protocol.
- Matchmaking's choice of a room: an attempt to join is a step with any room.
- The registry of active lobby sessions and its capacity, which is the number of session slots: an entry that is active counts as registered.
- The processing lock of a session in `Ownership`: a lobby task that finds a session busy goes to the back of the queue, as one step, and a room's task that does is a step not taken; the lock itself is in `TaskQueue` and `Rooms`.
- Ready marks of players in a room: whether all are ready is an input of a start.
- Winsock, IOCP, sockets and error paths of the system calls: a completion is a step that consumes one registered I/O.
- Threads' start, shutdown and the running flag: every loop runs as long as it likes.
- Liveness: no claim that a queued task or a room's deletion is eventually carried out. What is claimed is that it can be: `Departure` for a disconnect, `PhaseProgress` for the phases and their tasks, `RoomEffects.ProcessingFinishes` for a room's queue.
- MySQL, bcrypt, the sign-up server, the stress client and latency statistics.
- PhaseBarrier.PhasesAreOrdered: does not require at least half of the threads to be free when a phase starts; a phase may have any number of threads.
- Server.SessionSlot.BeginDisconnect: speaks of one call with no other thread in between; interleavings are in `Disconnect`.
- Server.SessionSlot.CompleteIO: the same.
- Departure.DisconnectIsCarriedOn: a completion and the beginning of a disconnect are one step each; split into their loads and swaps, `SlotReuse.CleanReuseIsSafe` says what holds of a slot reused cleanly, and `Disconnect.HazardExactly` that I/O may be pending when a disconnect is due.
- Departure.DisconnectCanFinish: the same; a disconnect that nobody announces is `SlotReuse.UnannouncedExactly`.
- GameRoom.PlayGame: the kinds it deals are inputs of its ticks; that all players are dealt the room's one list is `PieceBag.EveryPlayerReadsTheList`.
- GameRoom.WatchGame: S2C_REMOVE_PLAYER, which tells the others that a player has left, is not in its stream.
- PhaseBarrier.DrawnTaskIsThere: an enqueue counts and pushes in one step, so the moment in which the source's Dequeue spins does not occur; it is in `TaskQueue.ClaimedItemArrives`.
- Rooms.TetrisRoom.ProcessSpecificRoomTask: a ready mark has no effect.
- Server.TetrisServer.ProcessTransitionResult: the retry of matchmaking after a failure is a join request of its own (`Server.TetrisServer.TryJoinRoom`).
- TaskQueue.ConcurrentTaskQueue.Dequeue: asks for a task to be there instead of spinning; that a claim guarantees one is `TaskQueue.ClaimedItemArrives`.
- Framing.Receiver.ReceiveAll: the session accepts every task; refusals are in `Framing.Receiver.ProcessRecvBuffer`.
