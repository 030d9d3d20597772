/** Where sequences of steps take one session: from its arrival to the lobby, into a room and back,
    and out of the server. Each journey says what has become of every queue, slot, entry, room and
    account at its end; whatever a journey does not name is as it was. */
module Journeys {
  import opened Ownership

  /** In the lobby and free to leave it for a room. */
  predicate IsReady(s: State, k: Key) {
    && Shaped(s) && Current(s, k) && k.id != 0
    && s.sessions[k.slot].life == ACTIVE && s.sessions[k.slot].mode == LOBBY && s.entries[k.slot] == Active(k.id)
  }

  /** In a room, and the lobby has been told. */
  predicate IsPlaying(s: State, k: Key, r: nat) {
    && Shaped(s) && Current(s, k) && k.id != 0
    && s.sessions[k.slot].life == ACTIVE && s.sessions[k.slot].mode == ROOM(r) && s.entries[k.slot] == Empty && IsIn(s, k, r)
  }

  /** What the server holds, without the proofs' own record. */
  function Held(s: State): State {
    s.(where := [])
  }

  lemma OneStep(s: State, a: Step)
    requires CanStep(s, a)
    ensures Run(s, [a]) == Next(s, a)
  {
    assert [a][1..] == [];
  }

  lemma TwoSteps(s: State, a: Step, b: Step)
    requires CanStep(s, a) && CanStep(Next(s, a), b)
    ensures Run(s, [a, b]) == Next(Next(s, a), b)
  {
    hide CanStep, Next;
    assert [a, b][1..] == [b];
    OneStep(Next(s, a), b);
  }

  lemma ThreeSteps(s: State, a: Step, b: Step, c: Step)
    requires CanStep(s, a) && CanStep(Next(s, a), b) && CanStep(Next(Next(s, a), b), c)
    ensures Run(s, [a, b, c]) == Next(Next(Next(s, a), b), c)
  {
    hide CanStep, Next;
    assert [a, b, c][1..] == [b, c];
    TwoSteps(Next(s, a), b, c);
  }

  function WithMode(x: Session, m: Mode): Session {
    x.(mode := m)
  }

  // ---------- Steps ----------

  lemma JoinBegins(s: State, k: Key, r: nat)
    requires IsReady(s, k) && RoomExists(s, r)
    ensures CanStep(s, BeginJoin(k.slot, r))
    ensures var s' := Next(s, BeginJoin(k.slot, r));
            var asked := Held(s).(entries := s.entries[k.slot := Pending(k.id)]);
            Shaped(s') && Held(s') == if s.rooms[r].value.state == OPEN then asked.(work := s.work + multiset{Join(k, r)})
                                      else asked.(lobby := s.lobby + [Result(k, false)])
  {
  }

  lemma CreationBegins(s: State, k: Key)
    requires IsReady(s, k)
    ensures CanStep(s, BeginCreate(k.slot))
    ensures var s' := Next(s, BeginCreate(k.slot));
            Shaped(s') && Held(s') == Held(s).(entries := s.entries[k.slot := Pending(k.id)], work := s.work + multiset{Create(k)})
  {
  }

  /** The session is waiting for a room. */
  predicate IsWaiting(s: State, k: Key) {
    && Shaped(s) && Current(s, k) && k.id != 0
    && s.sessions[k.slot].life == ACTIVE && s.sessions[k.slot].mode == LOBBY && s.entries[k.slot] == Pending(k.id)
  }

  lemma JoinRuns(s: State, k: Key, r: nat, admit: bool)
    requires IsWaiting(s, k) && Join(k, r) in s.work && RoomExists(s, r) && s.rooms[r].value.state == OPEN
    ensures CanStep(s, RunJoin(k, r, admit))
    ensures var s' := Next(s, RunJoin(k, r, admit));
            var done := Held(s).(work := s.work - multiset{Join(k, r)}, lobby := s.lobby + [Result(k, admit)]);
            Shaped(s') && Held(s') ==
              if admit then done.(sessions := s.sessions[k.slot := WithMode(s.sessions[k.slot], ROOM(r))],
                                  rooms := s.rooms[r := Some(Room(OPEN, s.rooms[r].value.players + {k}))])
              else done
  {
  }

  lemma CreationRuns(s: State, k: Key, r: nat, succeed: bool)
    requires IsWaiting(s, k) && Create(k) in s.work && (succeed ==> r < |s.rooms| && s.rooms[r].None?)
    ensures CanStep(s, RunCreate(k, r, succeed))
    ensures var s' := Next(s, RunCreate(k, r, succeed));
            var done := Held(s).(work := s.work - multiset{Create(k)}, lobby := s.lobby + [Result(k, succeed)]);
            Shaped(s') && Held(s') ==
              if succeed then done.(sessions := s.sessions[k.slot := WithMode(s.sessions[k.slot], ROOM(r))],
                                    rooms := s.rooms[r := Some(Room(OPEN, {k}))])
              else done
  {
  }

  /** The task at the end of the lobby's queue is run. */
  lemma LastOf(s: State, front: seq<Task>, t: Task)
    requires s.lobby == front + [t]
    ensures s.lobby[|front|] == t && s.lobby[..|front|] + s.lobby[|front| + 1..] == front
  {
  }

  lemma ResultRuns(s: State, front: seq<Task>, k: Key, success: bool)
    requires Shaped(s) && Current(s, k) && k.id != 0 && s.entries[k.slot] == Pending(k.id) && s.lobby == front + [Result(k, success)]
    ensures CanStep(s, RunLobby(|front|))
    ensures var s' := Next(s, RunLobby(|front|));
            Shaped(s') && Held(s') == Held(s).(lobby := front, entries := s.entries[k.slot := if success then Empty else Active(k.id)])
  {
    LastOf(s, front, Result(k, success));
  }

  lemma EnteringRuns(s: State, front: seq<Task>, k: Key, r: nat)
    requires Shaped(s) && Current(s, k) && k.id != 0 && s.lobby == front + [Enter(k, r)]
    requires s.sessions[k.slot].life == ACTIVE && s.sessions[k.slot].mode == ROOM(r) && s.entries[k.slot] == Empty
    ensures CanStep(s, RunLobby(|front|))
    ensures var s' := Next(s, RunLobby(|front|));
            Shaped(s') && Held(s') == Held(s).(lobby := front, entries := s.entries[k.slot := Active(k.id)],
                                               sessions := s.sessions[k.slot := WithMode(s.sessions[k.slot], LOBBY)])
  {
    LastOf(s, front, Enter(k, r));
  }

  lemma LeavingRuns(s: State, k: Key, r: nat)
    requires IsPlaying(s, k, r)
    ensures CanStep(s, Leave(k, r))
    ensures var s' := Next(s, Leave(k, r));
            var left := s.rooms[r].value.players - {k};
            Shaped(s') && Held(s') == Held(s).(lobby := s.lobby + [Enter(k, r)],
                                               rooms := s.rooms[r := Some(Room(if left == {} then CLOSING else s.rooms[r].value.state, left))])
  {
  }

  // ---------- Into a room ----------

  /** A join request to an open room that lets the session in: it sits in the room, is in that
      room's mode, and the lobby is about to hear of it. */
  lemma JoinJourney(s: State, k: Key, r: nat)
    requires IsReady(s, k) && RoomExists(s, r) && s.rooms[r].value.state == OPEN
    ensures var s' := Run(s, [BeginJoin(k.slot, r), RunJoin(k, r, true)]);
            && Shaped(s') && IsIn(s', k, r)
            && Held(s') == Held(s).(sessions := s.sessions[k.slot := WithMode(s.sessions[k.slot], ROOM(r))],
                                    entries := s.entries[k.slot := Pending(k.id)],
                                    rooms := s.rooms[r := Some(Room(OPEN, s.rooms[r].value.players + {k}))],
                                    lobby := s.lobby + [Result(k, true)])
  {
    hide Next, CanStep, Run;
    JoinBegins(s, k, r);
    var s1 := Next(s, BeginJoin(k.slot, r));
    JoinRuns(s1, k, r, true);
    var s2 := Next(s1, RunJoin(k, r, true));
    assert s1.work - multiset{Join(k, r)} == s.work;
    TwoSteps(s, BeginJoin(k.slot, r), RunJoin(k, r, true));
  }

  /** A room that is no longer open when the request is made, or that turns the session away: it is
      back in the lobby, and nothing has changed. */
  lemma RefusedJourney(s: State, k: Key, r: nat)
    requires IsReady(s, k) && RoomExists(s, r)
    ensures s.rooms[r].value.state != OPEN ==>
              Held(Run(s, [BeginJoin(k.slot, r), RunLobby(|s.lobby|)])) == Held(s)
    ensures s.rooms[r].value.state == OPEN ==>
              Held(Run(s, [BeginJoin(k.slot, r), RunJoin(k, r, false), RunLobby(|s.lobby|)])) == Held(s)
  {
    hide Next, CanStep, Run;
    JoinBegins(s, k, r);
    var s1 := Next(s, BeginJoin(k.slot, r));
    assert s.entries[k.slot := Pending(k.id)][k.slot := Active(k.id)] == s.entries;
    if s.rooms[r].value.state != OPEN {
      ResultRuns(s1, s.lobby, k, false);
      TwoSteps(s, BeginJoin(k.slot, r), RunLobby(|s.lobby|));
    } else {
      JoinRuns(s1, k, r, false);
      var s2 := Next(s1, RunJoin(k, r, false));
      assert s1.work - multiset{Join(k, r)} == s.work;
      ResultRuns(s2, s.lobby, k, false);
      ThreeSteps(s, BeginJoin(k.slot, r), RunJoin(k, r, false), RunLobby(|s.lobby|));
    }
  }

  /** A creation that succeeds opens a room with this one player; one that fails changes nothing. */
  lemma CreationJourney(s: State, k: Key, r: nat)
    requires IsReady(s, k)
    ensures r < |s.rooms| && s.rooms[r].None? ==>
              Held(Run(s, [BeginCreate(k.slot), RunCreate(k, r, true), RunLobby(|s.lobby|)])) ==
              Held(s).(sessions := s.sessions[k.slot := WithMode(s.sessions[k.slot], ROOM(r))],
                       entries := s.entries[k.slot := Empty],
                       rooms := s.rooms[r := Some(Room(OPEN, {k}))])
    ensures Held(Run(s, [BeginCreate(k.slot), RunCreate(k, r, false), RunLobby(|s.lobby|)])) == Held(s)
  {
    if r < |s.rooms| && s.rooms[r].None? {
      CreationEnds(s, k, r, true);
    }
    CreationEnds(s, k, r, false);
  }

  lemma CreationEnds(s: State, k: Key, r: nat, succeed: bool)
    requires IsReady(s, k) && (succeed ==> r < |s.rooms| && s.rooms[r].None?)
    ensures Held(Run(s, [BeginCreate(k.slot), RunCreate(k, r, succeed), RunLobby(|s.lobby|)])) ==
              if succeed then Held(s).(sessions := s.sessions[k.slot := WithMode(s.sessions[k.slot], ROOM(r))],
                                       entries := s.entries[k.slot := Empty],
                                       rooms := s.rooms[r := Some(Room(OPEN, {k}))])
              else Held(s)
  {
    hide Next, CanStep, Run;
    CreationBegins(s, k);
    var s1 := Next(s, BeginCreate(k.slot));
    CreationRuns(s1, k, r, succeed);
    var s2 := Next(s1, RunCreate(k, r, succeed));
    assert s1.work - multiset{Create(k)} == s.work;
    ResultRuns(s2, s.lobby, k, succeed);
    assert s.entries[k.slot := Pending(k.id)][k.slot := Active(k.id)] == s.entries;
    assert s.entries[k.slot := Pending(k.id)][k.slot := Empty] == s.entries[k.slot := Empty];
    ThreeSteps(s, BeginCreate(k.slot), RunCreate(k, r, succeed), RunLobby(|s.lobby|));
  }

  // ---------- And back ----------

  /** A player who leaves an open room is ready in the lobby again; the last one leaves it closing. */
  lemma LeavingJourney(s: State, k: Key, r: nat)
    requires IsPlaying(s, k, r)
    ensures var s' := Run(s, [Leave(k, r), RunLobby(|s.lobby|)]);
            var left := s.rooms[r].value.players - {k};
            IsReady(s', k) && Held(s') == Held(s).(sessions := s.sessions[k.slot := WithMode(s.sessions[k.slot], LOBBY)],
                                                   entries := s.entries[k.slot := Active(k.id)],
                                                   rooms := s.rooms[r := Some(Room(if left == {} then CLOSING else s.rooms[r].value.state, left))])
  {
    hide Next, CanStep, Run;
    LeavingRuns(s, k, r);
    var s1 := Next(s, Leave(k, r));
    EnteringRuns(s1, s.lobby, k, r);
    TwoSteps(s, Leave(k, r), RunLobby(|s.lobby|));
  }

  lemma ToldJourney(s: State, k: Key, r: nat)
    requires IsReady(s, k) && RoomExists(s, r) && s.rooms[r].value.state == OPEN
    ensures var s' := Run(s, [BeginJoin(k.slot, r), RunJoin(k, r, true), RunLobby(|s.lobby|)]);
            && IsPlaying(s', k, r)
            && Held(s') == Held(s).(sessions := s.sessions[k.slot := WithMode(s.sessions[k.slot], ROOM(r))],
                                    entries := s.entries[k.slot := Empty],
                                    rooms := s.rooms[r := Some(Room(OPEN, s.rooms[r].value.players + {k}))])
  {
    hide Next, CanStep, Run;
    JoinBegins(s, k, r);
    var s1 := Next(s, BeginJoin(k.slot, r));
    JoinRuns(s1, k, r, true);
    var s2 := Next(s1, RunJoin(k, r, true));
    assert s1.work - multiset{Join(k, r)} == s.work;
    ResultRuns(s2, s.lobby, k, true);
    assert s.entries[k.slot := Pending(k.id)][k.slot := Empty] == s.entries[k.slot := Empty];
    ThreeSteps(s, BeginJoin(k.slot, r), RunJoin(k, r, true), RunLobby(|s.lobby|));
  }

  /** There and back: a session that joins an open room with other players, and leaves it again,
      leaves everything as it was. */
  lemma ThereAndBack(s: State, k: Key, r: nat)
    requires IsReady(s, k) && RoomExists(s, r) && s.rooms[r].value.state == OPEN
    requires s.rooms[r].value.players != {} && k !in s.rooms[r].value.players
    ensures var there := Run(s, [BeginJoin(k.slot, r), RunJoin(k, r, true), RunLobby(|s.lobby|)]);
            IsPlaying(there, k, r) && Held(Run(there, [Leave(k, r), RunLobby(|there.lobby|)])) == Held(s)
  {
    hide Run;
    ToldJourney(s, k, r);
    var there := Run(s, [BeginJoin(k.slot, r), RunJoin(k, r, true), RunLobby(|s.lobby|)]);
    LeavingJourney(there, k, r);
    assert s.rooms[r].value.players + {k} - {k} == s.rooms[r].value.players;
    BackInPlace(s, k, r);
  }

  lemma BackInPlace(s: State, k: Key, r: nat)
    requires IsReady(s, k) && RoomExists(s, r) && s.rooms[r].value.state == OPEN
    ensures var x := s.sessions[k.slot];
            && s.sessions[k.slot := WithMode(x, ROOM(r))][k.slot := WithMode(WithMode(x, ROOM(r)), LOBBY)] == s.sessions
            && s.entries[k.slot := Empty][k.slot := Active(k.id)] == s.entries
    ensures var room := s.rooms[r].value;
            s.rooms[r := Some(Room(OPEN, room.players + {k}))][r := Some(Room(OPEN, room.players))] == s.rooms
  {
    assert s.rooms[r].value == Room(OPEN, s.rooms[r].value.players);
  }

  // ---------- Arriving ----------

  /** A connection that gets a free slot is let into the lobby under a new key. */
  lemma ArrivalJourney(s: State, i: nat)
    requires Shaped(s) && i < |s.sessions| && s.sessions[i].life == NONE && s.entries[i] == Empty && s.nextId > 0
    ensures var (s', k) := (Run(s, [Accept(i), RunLobby(|s.lobby|)]), Key(i, s.nextId));
            && Held(s') == Held(s).(sessions := s.sessions[i := Session(ACTIVE, LOGIN, k.id, None, [], 0)],
                                    entries := s.entries[i := Active(k.id)], nextId := s.nextId + 1)
            && Shaped(s') && Current(s', k) && LobbyConsumes(s', i)
  {
    var k := Key(i, s.nextId);
    assert CanStep(s, Accept(i));
    var s1 := Next(s, Accept(i));
    assert s1.lobby == s.lobby + [Add(k)];
    LastOf(s1, s.lobby, Add(k));
    assert CanStep(s1, RunLobby(|s.lobby|));
    TwoSteps(s, Accept(i), RunLobby(|s.lobby|));
    hide Run;
  }

  /** A login under an account that nobody uses makes the session ready in the lobby; under one that
      is in use, or from a session that has logged in before, nothing changes. */
  lemma LoginJourney(s: State, k: Key, p: nat)
    requires Shaped(s) && Current(s, k) && k.id != 0 && LobbyConsumes(s, k.slot)
    ensures CanStep(s, Login(k.slot, p))
    ensures var s' := Next(s, Login(k.slot, p));
            if p !in s.logins && s.sessions[k.slot].mode == LOGIN then
              && IsReady(s', k)
              && Held(s') == Held(s).(sessions := s.sessions[k.slot := s.sessions[k.slot].(player := Some(p), mode := LOBBY)],
                                      logins := s.logins[p := k])
            else s' == s
  {
  }

  /** News of a session that is gone: its entry, if it still had one, is emptied, whatever became of
      the transition. */
  lemma LateNews(s: State, k: Key, success: bool)
    requires Shaped(s) && k.slot < |s.sessions| && !Current(s, k) && k.id != 0
    ensures ResultRun(s, k, success) ==
              if s.entries[k.slot] == Active(k.id) || s.entries[k.slot] == Pending(k.id) then s.(entries := s.entries[k.slot := Empty]) else s
  {
    assert s.entries[k.slot := s.entries[k.slot]] == s.entries;
  }

  // ---------- Input and output, and a session's own tasks ----------

  /** A send or a receive that is registered and completed leaves the count as it was, and so does a
      session task that is queued and run. Neither is accepted for a key whose session is gone. */
  lemma CountedBack(s: State, k: Key)
    requires Shaped(s)
    ensures Current(s, k) && s.sessions[k.slot].life == ACTIVE ==>
              Registered(s, k).sessions[k.slot].pending == s.sessions[k.slot].pending + 1 && Completed(Registered(s, k), k) == s
    ensures !Current(s, k) ==> Registered(s, k) == s && Completed(s, k) == s && Next(s, AddSessionTask(k)) == s
    ensures Current(s, k) && Consumes(s, k.slot) && s.sessions[k.slot].tasks == [] ==>
              var s1 := Next(s, AddSessionTask(k));
              s1.sessions[k.slot].tasks == [k.id] && CanStep(s1, RunSessionTask(k.slot)) && Next(s1, RunSessionTask(k.slot)) == s
  {
    if Current(s, k) {
      var x := s.sessions[k.slot];
      assert s.sessions[k.slot := x] == s.sessions;
      assert x.tasks == [] ==> x.tasks + [k.id] == [k.id] && [k.id][1..] == x.tasks;
    }
  }

  // ---------- Going away ----------

  /** A session that is being disconnected. */
  function Ending(x: Session, life: Life, pending: nat): Session {
    x.(life := life, pending := pending, tasks := [])
  }

  /** A disconnect begins: the session's tasks go; without I/O to wait for the lobby is told. */
  lemma DisconnectBegins(s: State, k: Key)
    requires Shaped(s) && Current(s, k) && Consumes(s, k.slot)
    ensures CanStep(s, BeginDisconnect(k.slot))
    ensures var (s', x) := (Next(s, BeginDisconnect(k.slot)), s.sessions[k.slot]);
            s' == if x.pending == 0 then s.(sessions := s.sessions[k.slot := Ending(x, DISCONNECTING, 0)], lobby := s.lobby + [Disconnect(k)])
                  else s.(sessions := s.sessions[k.slot := Ending(x, DISCONNECT_PENDING, x.pending)])
  {
  }

  /** The completions of what was pending: only the last one tells the lobby. */
  lemma {:induction false} CompletionsEnd(s: State, k: Key, n: nat)
    requires Shaped(s) && Current(s, k) && s.sessions[k.slot].life == DISCONNECT_PENDING && s.sessions[k.slot].pending == n > 0
    ensures var (s', x) := (Run(s, seq(n, _ => CompleteIO(k))), s.sessions[k.slot]);
            s' == s.(sessions := s.sessions[k.slot := x.(life := DISCONNECTING, pending := 0)], lobby := s.lobby + [Disconnect(k)])
    decreases n
  {
    var steps := seq(n, _ => CompleteIO(k));
    var s1 := Next(s, CompleteIO(k));
    assert steps[0] == CompleteIO(k) && steps[1..] == seq(n - 1, _ => CompleteIO(k));
    assert Run(s, steps) == Run(s1, steps[1..]);
    hide Run;
    if n == 1 {
      assert steps[1..] == [];
      NoSteps(s1);
    } else {
      CompletionsEnd(s1, k, n - 1);
    }
  }

  lemma NoSteps(s: State)
    ensures Run(s, []) == s
  {
  }

  /** The accounts without the one this session holds. */
  function Accounts(s: State, k: Key): map<nat, Key>
    requires Current(s, k)
  {
    var player := s.sessions[k.slot].player;
    map p | p in s.logins && !(player == Some(p) && s.logins[p] == k) :: s.logins[p]
  }

  /** The lobby carries the disconnect of a session out that is in no room: its slot is free, its
      entry empty and its account logged out. */
  lemma DisconnectRuns(s: State, front: seq<Task>, k: Key)
    requires Shaped(s) && Current(s, k) && k.id != 0 && s.sessions[k.slot].life == DISCONNECTING && !s.sessions[k.slot].mode.ROOM?
    requires s.lobby == front + [Disconnect(k)]
    requires s.entries[k.slot] == Empty || s.entries[k.slot] == Active(k.id) || s.entries[k.slot] == Pending(k.id)
    ensures CanStep(s, RunLobby(|front|))
    ensures var s' := Next(s, RunLobby(|front|));
            Held(s') == Held(s).(lobby := front, sessions := s.sessions[k.slot := FREE_SESSION], entries := s.entries[k.slot := Empty],
                                 logins := Accounts(s, k))
  {
    LastOf(s, front, Disconnect(k));
    var s' := Next(s, RunLobby(|front|));
    assert s'.logins == Accounts(s, k);
    assert s.entries[k.slot] == Empty ==> s.entries[k.slot := Empty] == s.entries;
  }

  /** From the lobby to the end: a session with nothing pending gives up its slot, entry and
      account, and leaves nothing behind. */
  lemma LobbyDisconnectJourney(s: State, k: Key)
    requires IsReady(s, k) && s.sessions[k.slot].pending == 0
    ensures var s' := Run(s, [BeginDisconnect(k.slot), RunLobby(|s.lobby|)]);
            Held(s') == Held(s).(sessions := s.sessions[k.slot := FREE_SESSION], entries := s.entries[k.slot := Empty], logins := Accounts(s, k))
  {
    assert Consumes(s, k.slot);
    hide Next, CanStep, Run;
    DisconnectBegins(s, k);
    var s1 := Next(s, BeginDisconnect(k.slot));
    DisconnectRuns(s1, s.lobby, k);
    assert s.sessions[k.slot := s1.sessions[k.slot]][k.slot := FREE_SESSION] == s.sessions[k.slot := FREE_SESSION];
    TwoSteps(s, BeginDisconnect(k.slot), RunLobby(|s.lobby|));
  }

  /** A room is asked to remove a player who is dying. */
  lemma RemovalIsSent(s: State, front: seq<Task>, k: Key, r: nat)
    requires Shaped(s) && Current(s, k) && s.sessions[k.slot].life == DISCONNECTING && s.sessions[k.slot].mode == ROOM(r)
    requires RoomExists(s, r) && s.rooms[r].value.state == OPEN && s.lobby == front + [Disconnect(k)]
    ensures CanStep(s, RunLobby(|front|))
    ensures Next(s, RunLobby(|front|)) == s.(lobby := front, work := s.work + multiset{Remove(k, r)})
  {
    LastOf(s, front, Disconnect(k));
  }

  /** The room removes them and tells the lobby, which can finish now. */
  lemma RemovalRuns(s: State, k: Key, r: nat)
    requires Shaped(s) && Current(s, k) && s.sessions[k.slot].life == DISCONNECTING && s.sessions[k.slot].mode == ROOM(r)
    requires IsIn(s, k, r) && Remove(k, r) in s.work
    ensures CanStep(s, RunRemove(k, r))
    ensures var s' := Next(s, RunRemove(k, r));
            var left := s.rooms[r].value.players - {k};
            Shaped(s') && Held(s') == Held(s).(work := s.work - multiset{Remove(k, r)}, lobby := s.lobby + [Disconnect(k)],
                                               sessions := s.sessions[k.slot := WithMode(s.sessions[k.slot], NoMode)],
                                               rooms := s.rooms[r := Some(Room(if left == {} then CLOSING else s.rooms[r].value.state, left))])
  {
  }

  /** A player's disconnect is begun and handed to the room. */
  lemma DisconnectIsHandedOver(s: State, k: Key, r: nat)
    requires IsPlaying(s, k, r) && s.rooms[r].value.state == OPEN && s.sessions[k.slot].pending == 0
    ensures CanStep(s, BeginDisconnect(k.slot)) && CanStep(Next(s, BeginDisconnect(k.slot)), RunLobby(|s.lobby|))
    ensures Next(Next(s, BeginDisconnect(k.slot)), RunLobby(|s.lobby|)) ==
              s.(sessions := s.sessions[k.slot := Ending(s.sessions[k.slot], DISCONNECTING, 0)], work := s.work + multiset{Remove(k, r)})
  {
    assert Consumes(s, k.slot);
    hide Next, CanStep, Consumes;
    DisconnectBegins(s, k);
    RemovalIsSent(Next(s, BeginDisconnect(k.slot)), s.lobby, k, r);
  }

  /** The room removes the player, and the lobby finishes. */
  lemma DisconnectIsFinished(s: State, k: Key, r: nat)
    requires Shaped(s) && Current(s, k) && k.id != 0 && s.sessions[k.slot].life == DISCONNECTING && s.sessions[k.slot].mode == ROOM(r)
    requires IsIn(s, k, r) && Remove(k, r) in s.work && s.entries[k.slot] == Empty
    ensures CanStep(s, RunRemove(k, r)) && CanStep(Next(s, RunRemove(k, r)), RunLobby(|s.lobby|))
    ensures var s' := Next(Next(s, RunRemove(k, r)), RunLobby(|s.lobby|));
            var left := s.rooms[r].value.players - {k};
            Held(s') == Held(s).(work := s.work - multiset{Remove(k, r)}, logins := Accounts(s, k),
                                 sessions := s.sessions[k.slot := FREE_SESSION],
                                 rooms := s.rooms[r := Some(Room(if left == {} then CLOSING else s.rooms[r].value.state, left))])
  {
    hide Next, CanStep;
    RemovalRuns(s, k, r);
    var s1 := Next(s, RunRemove(k, r));
    DisconnectRuns(s1, s.lobby, k);
    assert s.entries[k.slot := Empty] == s.entries;
    assert s.sessions[k.slot := s1.sessions[k.slot]][k.slot := FREE_SESSION] == s.sessions[k.slot := FREE_SESSION];
  }

  /** The same from a room: the player's place in the room is given up as well, and the last player
      leaves the room closing. */
  lemma RoomDisconnectJourney(s: State, k: Key, r: nat)
    requires IsPlaying(s, k, r) && s.rooms[r].value.state == OPEN && s.sessions[k.slot].pending == 0
    ensures var s' := Run(s, [BeginDisconnect(k.slot), RunLobby(|s.lobby|), RunRemove(k, r), RunLobby(|s.lobby|)]);
            var left := s.rooms[r].value.players - {k};
            Held(s') == Held(s).(sessions := s.sessions[k.slot := FREE_SESSION], logins := Accounts(s, k),
                                 rooms := s.rooms[r := Some(Room(if left == {} then CLOSING else OPEN, left))])
  {
    hide Next, CanStep, Run;
    DisconnectIsHandedOver(s, k, r);
    var s2 := Next(Next(s, BeginDisconnect(k.slot)), RunLobby(|s.lobby|));
    DisconnectIsFinished(s2, k, r);
    assert s2.work - multiset{Remove(k, r)} == s.work;
    assert s.sessions[k.slot := s2.sessions[k.slot]][k.slot := FREE_SESSION] == s.sessions[k.slot := FREE_SESSION];
    FourSteps(s, BeginDisconnect(k.slot), RunLobby(|s.lobby|), RunRemove(k, r), RunLobby(|s.lobby|));
  }

  lemma FourSteps(s: State, a: Step, b: Step, c: Step, d: Step)
    requires CanStep(s, a) && CanStep(Next(s, a), b) && CanStep(Next(Next(s, a), b), c) && CanStep(Next(Next(Next(s, a), b), c), d)
    ensures Run(s, [a, b, c, d]) == Next(Next(Next(Next(s, a), b), c), d)
  {
    hide CanStep, Next;
    assert [a, b, c, d][1..] == [b, c, d];
    ThreeSteps(Next(s, a), b, c, d);
  }

  // ---------- A room's end ----------

  /** A closing room that nothing is queued for is deleted in two steps: its index is free again. */
  lemma RoomEndJourney(s: State, r: nat)
    requires Shaped(s) && RoomExists(s, r) && s.rooms[r].value.state == CLOSING && !RoomBusy(s, r)
    ensures Run(s, [PostDelete(r), RunDelete(r)]) == s.(rooms := s.rooms[r := None])
  {
    var s1 := Next(s, PostDelete(r));
    assert s1.work - multiset{Delete(r)} == s.work;
    TwoSteps(s, PostDelete(r), RunDelete(r));
    hide Run;
  }
}
