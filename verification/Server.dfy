/** The server's objects that work in place: a lobby entry, a session, and the server, which holds
    session slots, lobby entries, rooms and queues. Every method is tied to the step of
    `Ownership` it carries out. */
module Server {
  import opened Ownership

  // ---------- A lobby entry ----------

  datatype EntryState = EMPTY | PENDING | ACTIVE_ENTRY

  class LobbySession {
    var state: EntryState
    var sessionId: nat

    /** The id is meaningful only while the entry is in use. */
    ghost function View(): Entry
      reads this
    {
      match state
      case EMPTY => Entry.Empty
      case PENDING => Entry.Pending(sessionId)
      case ACTIVE_ENTRY => Entry.Active(sessionId)
    }

    constructor ()
      ensures View() == Entry.Empty && sessionId == 0
    {
      state := EMPTY;
      sessionId := 0;
    }

    predicate MatchesSessionKey(id: nat)
      reads this
    {
      sessionId == id && id != 0
    }

    method TryPrepare(id: nat) returns (ok: bool)
      modifies this
      ensures (View(), ok) == Prepared(old(View()), id)
    {
      if id == 0 || state != EMPTY {
        return false;
      }
      state := PENDING;
      sessionId := id;
      return true;
    }

    method TrySetPending(id: nat) returns (ok: bool)
      modifies this
      ensures (View(), ok) == SetPending(old(View()), id)
    {
      if !MatchesSessionKey(id) || state != ACTIVE_ENTRY {
        return false;
      }
      state := PENDING;
      return true;
    }

    method Activate(id: nat) returns (ok: bool)
      modifies this
      ensures (View(), ok) == Activated(old(View()), id)
    {
      if !MatchesSessionKey(id) || state != PENDING {
        return false;
      }
      state := ACTIVE_ENTRY;
      return true;
    }

    method Clear(id: nat) returns (ok: bool)
      modifies this
      ensures (View(), ok) == Cleared(old(View()), id)
    {
      if !MatchesSessionKey(id) || state == EMPTY {
        return false;
      }
      state := PENDING;
      sessionId := 0;
      state := EMPTY;
      return true;
    }
  }

  // ---------- A session slot ----------

  class SessionSlot {
    var lifeState: Life
    var modeState: Mode
    var sessionId: nat
    var player: Option<nat>
    var tasks: seq<nat>
    var ioPendingCount: nat

    /** The count means nothing while the slot is free. */
    ghost function View(): Session
      reads this
    {
      Session(lifeState, modeState, sessionId, player, tasks, if lifeState == NONE then 0 else ioPendingCount)
    }

    constructor ()
      ensures View() == FREE_SESSION
    {
      lifeState, modeState, sessionId, player, tasks, ioPendingCount := NONE, NoMode, 0, None, [], 0;
    }

    predicate Matches(id: nat)
      reads this
    {
      lifeState != NONE && sessionId == id
    }

    method InitSession(id: nat) returns (ok: bool)
      modifies this
      ensures ok <==> id != 0 && old(lifeState) == NONE
      ensures View() == if ok then Session(ACTIVE, LOGIN, id, None, old(tasks), 0) else old(View())
    {
      if id == 0 || lifeState != NONE {
        return false;
      }
      ioPendingCount := 0;
      player := None;
      sessionId := id;
      lifeState := ACTIVE;
      modeState := LOGIN;
      return true;
    }

    method ApplyLoginResult(p: nat) returns (ok: bool)
      modifies this
      ensures ok <==> old(modeState) == LOGIN && old(lifeState) == ACTIVE
      ensures View() == if ok then old(View()).(player := Some(p), mode := LOBBY) else old(View())
    {
      if modeState != LOGIN || lifeState != ACTIVE {
        return false;
      }
      player := Some(p);
      modeState := LOBBY;
      return true;
    }

    method TrySetRoomMode(id: nat, room: nat) returns (ok: bool)
      modifies this
      ensures ok <==> old(lifeState) == ACTIVE && old(modeState) == LOBBY && old(sessionId) == id
      ensures View() == if ok then old(View()).(mode := ROOM(room)) else old(View())
    {
      if lifeState != ACTIVE || modeState != LOBBY || sessionId != id {
        return false;
      }
      modeState := ROOM(room);
      return true;
    }

    method TrySetLobbyMode(id: nat) returns (ok: bool)
      modifies this
      ensures ok <==> old(lifeState) == ACTIVE && old(modeState).ROOM? && old(sessionId) == id
      ensures View() == if ok then old(View()).(mode := LOBBY) else old(View())
    {
      if lifeState != ACTIVE || !modeState.ROOM? || sessionId != id {
        return false;
      }
      modeState := LOBBY;
      return true;
    }

    /** The registration of a send or a receive. */
    method Register() returns (ok: bool)
      modifies this
      ensures ok <==> old(lifeState) == ACTIVE
      ensures View() == if ok then old(View()).(pending := old(ioPendingCount) + 1) else old(View())
    {
      if lifeState != ACTIVE {
        return false;
      }
      ioPendingCount := ioPendingCount + 1;
      return true;
    }

    /** Undisturbed by other threads: true means that nothing was pending. */
    method BeginDisconnect(id: nat) returns (finished: bool)
      modifies this
      ensures finished <==> old(lifeState) == ACTIVE && old(sessionId) == id && old(ioPendingCount) == 0
      ensures old(lifeState) == ACTIVE && old(sessionId) == id ==>
                View() == old(View()).(life := if finished then DISCONNECTING else DISCONNECT_PENDING)
      ensures old(lifeState) != ACTIVE || old(sessionId) != id ==> View() == old(View())
    {
      if lifeState != ACTIVE || sessionId != id {
        return false;
      }
      lifeState := DISCONNECT_PENDING;
      if ioPendingCount != 0 {
        return false;
      }
      lifeState := DISCONNECTING;
      return true;
    }

    method CompleteIO(id: nat) returns (finished: bool)
      modifies this
      ensures finished <==> old(Matches(id)) && old(ioPendingCount) == 1 && old(lifeState) == DISCONNECT_PENDING
      ensures View() == if !old(Matches(id)) || old(ioPendingCount) == 0 then old(View())
                        else old(View()).(pending := old(ioPendingCount) - 1, life := if finished then DISCONNECTING else old(lifeState))
    {
      if !Matches(id) || ioPendingCount == 0 {
        return false;
      }
      ioPendingCount := ioPendingCount - 1;
      if ioPendingCount != 0 || lifeState != DISCONNECT_PENDING {
        return false;
      }
      lifeState := DISCONNECTING;
      return true;
    }

    method CompleteRoomRemoval(id: nat) returns (finished: bool)
      modifies this
      ensures var out := (old(lifeState) == DISCONNECT_PENDING || old(lifeState) == DISCONNECTING) && old(modeState).ROOM? && old(sessionId) == id;
              && View() == (if out then old(View()).(mode := NoMode) else old(View()))
              && (finished <==> out && old(lifeState) == DISCONNECTING)
    {
      if (lifeState != DISCONNECT_PENDING && lifeState != DISCONNECTING) || !modeState.ROOM? || sessionId != id {
        return false;
      }
      modeState := NoMode;
      return lifeState == DISCONNECTING;
    }

    method TryEnqueueTask(id: nat) returns (ok: bool)
      modifies this
      ensures ok <==> old(lifeState) == ACTIVE && old(sessionId) == id
      ensures View() == if ok then old(View()).(tasks := old(tasks) + [id]) else old(View())
    {
      if lifeState != ACTIVE || sessionId != id {
        return false;
      }
      tasks := tasks + [id];
      return true;
    }

    method DiscardTasks()
      modifies this`tasks
      ensures View() == old(View()).(tasks := [])
    {
      tasks := [];
    }

    method FinalizeDisconnect(id: nat)
      modifies this
      ensures View() == if old(lifeState) == DISCONNECTING && old(sessionId) == id
                        then FREE_SESSION.(tasks := old(tasks)) else old(View())
    {
      if lifeState != DISCONNECTING || sessionId != id {
        return;
      }
      player := None;
      sessionId := 0;
      modeState := NoMode;
      lifeState := NONE;
    }
  }

  // ---------- The server ----------

  ghost function Sessions(slots: seq<SessionSlot>): (views: seq<Session>)
    reads slots
    ensures |views| == |slots| && forall i :: 0 <= i < |slots| ==> views[i] == slots[i].View()
  {
    seq(|slots|, (i: int) requires 0 <= i < |slots| reads slots => slots[i].View())
  }

  ghost function Entries(lobby: seq<LobbySession>): (views: seq<Entry>)
    reads lobby
    ensures |views| == |lobby| && forall i :: 0 <= i < |lobby| ==> views[i] == lobby[i].View()
  {
    seq(|lobby|, (i: int) requires 0 <= i < |lobby| reads lobby => lobby[i].View())
  }

  predicate Apart<T(==)>(objects: seq<T>) {
    forall i, j :: 0 <= i < j < |objects| ==> objects[i] != objects[j]
  }

  lemma OneSession(slots: seq<SessionSlot>, before: seq<Session>, i: nat)
    requires i < |slots| == |before| && forall j :: 0 <= j < |slots| && j != i ==> slots[j].View() == before[j]
    ensures Sessions(slots) == before[i := slots[i].View()]
  {
  }

  lemma OneEntry(lobby: seq<LobbySession>, before: seq<Entry>, i: nat)
    requires i < |lobby| == |before| && forall j :: 0 <= j < |lobby| && j != i ==> lobby[j].View() == before[j]
    ensures Entries(lobby) == before[i := lobby[i].View()]
  {
  }

  /** `sessions` and `lobby` are the slots and their lobby entries, `rooms` the room array.
      `where` is the proof's own record. */
  class TetrisServer {
    const sessions: seq<SessionSlot>
    const lobby: seq<LobbySession>
    const rooms: array<Option<Room>>
    var activePlayers: map<nat, Key>
    var lobbyTasks: seq<Task>
    var otherTasks: multiset<Task>
    var nextId: nat
    ghost var where: seq<Where>

    ghost predicate Valid()
      reads this
    {
      |lobby| == |sessions| == |where| && Apart(sessions) && Apart(lobby) && nextId > 0
    }

    ghost function View(): State
      reads this, sessions, lobby, rooms
    {
      State(Sessions(sessions), Entries(lobby), rooms[..], activePlayers, lobbyTasks, otherTasks, nextId, where)
    }

    /** `FindSession`. */
    predicate IsCurrent(k: Key)
      reads sessions
      ensures IsCurrent(k) <==> k.slot < |sessions| && sessions[k.slot].lifeState != NONE && sessions[k.slot].sessionId == k.id
    {
      k.slot < |sessions| && sessions[k.slot].Matches(k.id)
    }

    /** The first free slot takes the new session; if there is none, nothing happens. That no task
        is left in a free slot is part of `Inv`. */
    method AcquireSession() returns (slot: int)
      requires Valid() && forall x :: x in Sessions(sessions) && x.life == NONE ==> x.tasks == []
      modifies this, sessions
      ensures Valid() && -1 <= slot < |sessions|
      ensures slot == -1 <==> forall i :: 0 <= i < |sessions| ==> old(sessions[i].lifeState) != NONE
      ensures slot >= 0 ==> old(sessions[slot].lifeState) == NONE && forall i :: 0 <= i < slot ==> old(sessions[i].lifeState) != NONE
      ensures View() == if slot >= 0 then Accepted(old(View()), slot) else old(View())
    {
      hide Sessions, Entries, Accepted;
      ghost var before := Sessions(sessions);
      for i := 0 to |sessions|
        invariant Valid() && View() == old(View())
        invariant forall j :: 0 <= j < i ==> before[j].life != NONE
      {
        assert before[i] in before;
        var ok := TakeSlot(i);
        if ok {
          return i;
        }
      }
      return -1;
    }

    method TakeSlot(i: nat) returns (ok: bool)
      requires Valid() && i < |sessions| && (sessions[i].lifeState == NONE ==> sessions[i].tasks == [])
      modifies this`nextId, this`lobbyTasks, this`where, sessions
      ensures Valid() && (ok <==> old(sessions[i].lifeState) == NONE)
      ensures View() == if ok then Accepted(old(View()), i) else old(View())
    {
      hide Sessions, Entries;
      ok := InitSlot(i, nextId);
      if ok {
        lobbyTasks := lobbyTasks + [Add(Key(i, nextId))];
        where := where[i := InAdd];
        nextId := nextId + 1;
      }
    }

    method InitSlot(i: nat, id: nat) returns (ok: bool)
      requires Valid() && i < |sessions| && id > 0
      modifies sessions
      ensures ok <==> old(Sessions(sessions))[i].life == NONE
      ensures Sessions(sessions) == if ok then old(Sessions(sessions))[i := Session(ACTIVE, LOGIN, id, None, old(Sessions(sessions))[i].tasks, 0)]
                                    else old(Sessions(sessions))
    {
      ghost var before := Sessions(sessions);
      ok := sessions[i].InitSession(id);
      OneSession(sessions, before, i);
      assert before[i := before[i]] == before;
    }

    /** `ActivePlayerManager::AddPlayer`. */
    method AddPlayer(i: nat, player: nat) returns (ok: bool)
      requires Valid() && i < |sessions|
      modifies this`activePlayers, sessions
      ensures Valid() && View() == LoggedIn(old(View()), i, player)
      ensures ok <==> player !in old(activePlayers) && old(sessions[i].modeState) == LOGIN && old(sessions[i].lifeState) == ACTIVE
    {
      if player in activePlayers {
        return false;
      }
      ghost var before := Sessions(sessions);
      ok := sessions[i].ApplyLoginResult(player);
      OneSession(sessions, before, i);
      if ok {
        activePlayers := activePlayers[player := Key(i, sessions[i].sessionId)];
      } else {
        assert before[i := before[i]] == before;
      }
    }

    /** `ActivePlayerManager::RemovePlayer`: only the session that holds the account gives it up. */
    method RemovePlayer(player: nat, k: Key)
      modifies this`activePlayers
      ensures activePlayers == if player in old(activePlayers) && old(activePlayers)[player] == k then old(activePlayers) - {player}
                               else old(activePlayers)
    {
      if player !in activePlayers || activePlayers[player] != k {
        return;
      }
      activePlayers := activePlayers - {player};
    }

    method BeginRoomTransition(k: Key) returns (ok: bool)
      requires Valid()
      modifies lobby
      ensures ok <==> old(LobbyReady(View(), k))
      ensures Entries(lobby) == if ok then old(Entries(lobby))[k.slot := Entry.Pending(k.id)] else old(Entries(lobby))
    {
      if !IsCurrent(k) || sessions[k.slot].lifeState != ACTIVE || sessions[k.slot].modeState != LOBBY {
        return false;
      }
      ghost var before := Entries(lobby);
      ok := lobby[k.slot].TrySetPending(k.id);
      OneEntry(lobby, before, k.slot);
      assert before[k.slot := before[k.slot]] == before;
    }

    /** A join request; a room that cannot be found, or is for one player only, refuses it. */
    method TryJoinRoom(k: Key, r: nat, forOne: bool) returns (ok: bool)
      requires Valid()
      modifies this`lobbyTasks, this`otherTasks, this`where, lobby
      ensures Valid() && (ok <==> r < rooms.Length && rooms[r].Some? && !forOne && old(LobbyReady(View(), k)))
      ensures View() == if ok then JoinBegun(old(View()), k.slot, r) else old(View())
      ensures ok && rooms[r].value.state == OPEN ==>
                lobbyTasks == old(lobbyTasks) && otherTasks == old(otherTasks) + multiset{Join(k, r)}
      ensures ok && rooms[r].value.state != OPEN ==>
                lobbyTasks == old(lobbyTasks) + [Result(k, false)] && otherTasks == old(otherTasks)
      ensures !ok ==> lobbyTasks == old(lobbyTasks) && otherTasks == old(otherTasks)
    {
      hide Sessions, Entries;
      if r >= rooms.Length || rooms[r].None? || forOne {
        return false;
      }
      ok := BeginRoomTransition(k);
      if !ok {
        return;
      }
      if rooms[r].value.state == OPEN {
        otherTasks := otherTasks + multiset{Join(k, r)};
        where := where[k.slot := InJoin(r)];
      } else {
        lobbyTasks := lobbyTasks + [Result(k, false)];
        where := where[k.slot := InFailure];
      }
    }

    method ProcessAddSession(k: Key)
      requires Valid()
      modifies this`where, lobby
      ensures Valid() && View() == AddRun(old(View()), k)
    {
      hide Sessions, Entries;
      if !IsCurrent(k) {
        return;
      }
      var x := sessions[k.slot];
      if x.lifeState != ACTIVE || (x.modeState != LOGIN && x.modeState != LOBBY) {
        where := where[k.slot := Lost(true)];
        return;
      }
      ghost var before := Entries(lobby);
      var prepared := lobby[k.slot].TryPrepare(k.id);
      if prepared {
        var activated := lobby[k.slot].Activate(k.id);
        where := where[k.slot := InLobby];
      } else {
        where := where[k.slot := Lost(true)];
      }
      OneEntry(lobby, before, k.slot);
      assert before[k.slot := before[k.slot]] == before;
    }

    method ProcessTransitionResult(k: Key, success: bool)
      requires Valid()
      modifies this`where, lobby
      ensures Valid() && View() == ResultRun(old(View()), k, success)
    {
      hide Sessions, Entries;
      if k.slot >= |lobby| {
        return;
      }
      ghost var before := Entries(lobby);
      assert before[k.slot := before[k.slot]] == before;
      if success || !IsCurrent(k) {
        var cleared := lobby[k.slot].Clear(k.id);
        if IsCurrent(k) {
          where := where[k.slot := Told(where[k.slot])];
        }
      } else {
        var ok := lobby[k.slot].Activate(k.id);
        where := where[k.slot := if ok then InLobby else Lost(true)];
      }
      OneEntry(lobby, before, k.slot);
    }

    /** False when another thread is working on the session: the task has to come again. */
    method ProcessEnterLobby(k: Key, r: nat, busy: bool) returns (done: bool)
      requires Valid()
      modifies this`where, lobby, sessions
      ensures Valid() && (done <==> !(busy && old(IsCurrent(k)) && old(sessions[k.slot].lifeState) == ACTIVE))
      ensures View() == if done then EnterRun(old(View()), k, r) else old(View())
    {
      hide Sessions, Entries;
      if !IsCurrent(k) {
        return true;
      }
      var arrived := false;
      if sessions[k.slot].lifeState == ACTIVE {
        if busy {
          return false;
        }
        if sessions[k.slot].modeState == ROOM(r) {
          arrived := TakeIn(k);
        }
      }
      where := where[k.slot := if arrived then InLobby else Lost(ToldOf(where[k.slot]))];
      return true;
    }

    /** The lobby takes a session back if its entry is empty. */
    method TakeIn(k: Key) returns (ok: bool)
      requires Valid() && IsCurrent(k) && sessions[k.slot].lifeState == ACTIVE && sessions[k.slot].modeState.ROOM?
      modifies lobby, sessions
      ensures ok <==> k.id != 0 && old(Entries(lobby))[k.slot] == Entry.Empty
      ensures Entries(lobby) == if ok then old(Entries(lobby))[k.slot := Entry.Active(k.id)] else old(Entries(lobby))
      ensures Sessions(sessions) == if ok then old(Sessions(sessions))[k.slot := old(Sessions(sessions))[k.slot].(mode := LOBBY)]
                                    else old(Sessions(sessions))
    {
      ghost var (slots, before) := (Sessions(sessions), Entries(lobby));
      ok := lobby[k.slot].TryPrepare(k.id);
      if ok {
        var moved := sessions[k.slot].TrySetLobbyMode(k.id);
        var activated := lobby[k.slot].Activate(k.id);
      }
      OneEntry(lobby, before, k.slot);
      OneSession(sessions, slots, k.slot);
      assert before[k.slot := before[k.slot]] == before && slots[k.slot := slots[k.slot]] == slots;
    }

    method CompleteRoomDisconnect(k: Key)
      requires Valid()
      modifies this`lobbyTasks, sessions
      ensures Valid() && View() == RoomDisconnected(old(View()), k)
      ensures IsCurrent(k) == old(IsCurrent(k))
    {
      hide Sessions, Entries;
      if !IsCurrent(k) {
        return;
      }
      ghost var before := Sessions(sessions);
      var finished := sessions[k.slot].CompleteRoomRemoval(k.id);
      OneSession(sessions, before, k.slot);
      assert before[k.slot := before[k.slot]] == before;
      if finished {
        lobbyTasks := lobbyTasks + [Disconnect(k)];
      }
    }

    /** The last steps of a disconnect: the account, the lobby entry, the tasks, the slot. */
    method FreeSlot(k: Key)
      requires Valid() && IsDying(k)
      modifies this`activePlayers, this`where, sessions, lobby
      ensures Valid() && View() == Finalized(old(View()), k)
    {
      FreedInSteps(View(), k);
      hide Sessions, Entries, Cleared, Finalized, WithSession, WithEntry, At;
      LogOut(k);
      ClearEntryAndSession(k);
    }

    method ClearEntryAndSession(k: Key)
      requires Valid() && IsDying(k)
      modifies this`where, sessions, lobby
      ensures Valid()
      ensures var cleared := WithEntry(old(View()), k.slot, Cleared(old(View()).entries[k.slot], k.id).0);
              View() == At(WithSession(cleared, k.slot, FREE_SESSION), k.slot, Nowhere)
    {
      hide Sessions, Entries, Cleared;
      ClearEntry(k);
      ReleaseSession(k);
      where := where[k.slot := Nowhere];
    }

    method LogOut(k: Key)
      requires Valid() && IsCurrent(k)
      modifies this`activePlayers
      ensures View() == old(View()).(logins := LoginsWithout(old(activePlayers), View().sessions[k.slot].player, k))
    {
      var player := sessions[k.slot].player;
      if player.Some? {
        RemovePlayer(player.value, k);
      }
    }

    method ClearEntry(k: Key)
      requires Valid() && k.slot < |lobby|
      modifies lobby
      ensures View() == WithEntry(old(View()), k.slot, Cleared(old(View()).entries[k.slot], k.id).0)
    {
      ghost var before := Entries(lobby);
      var cleared := lobby[k.slot].Clear(k.id);
      OneEntry(lobby, before, k.slot);
    }

    method ReleaseSession(k: Key)
      requires Valid() && IsDying(k)
      modifies sessions
      ensures View() == WithSession(old(View()), k.slot, FREE_SESSION)
    {
      ghost var before := Sessions(sessions);
      sessions[k.slot].DiscardTasks();
      sessions[k.slot].FinalizeDisconnect(k.id);
      OneSession(sessions, before, k.slot);
    }

    /** True when the disconnect task is done with, false when it has to come again: when another
        thread is working on the session, or the room does not accept the removal. */
    method FinalizeDisconnect(k: Key, busy: bool) returns (done: bool)
      requires Valid()
      modifies this, sessions, lobby
      ensures Valid()
      ensures var later := View().(lobby := if done then lobbyTasks else lobbyTasks + [Disconnect(k)]);
              if busy && old(IsDying(k)) then !done && View() == old(View()) else later == DisconnectRun(old(View()), k)
    {
      hide Sessions, Entries;
      if !IsDying(k) {
        return true;
      }
      if busy {
        return false;
      }
      if sessions[k.slot].modeState.ROOM? {
        var r := sessions[k.slot].modeState.room;
        if r < rooms.Length && rooms[r].Some? {
          if rooms[r].value.state == OPEN {
            otherTasks := otherTasks + multiset{Remove(k, r)};
            return true;
          }
          return false;
        }
        CompleteRoomDisconnect(k);
        return true;
      }
      FreeSlot(k);
      return true;
    }

    predicate IsDying(k: Key)
      reads sessions
    {
      IsCurrent(k) && sessions[k.slot].lifeState == DISCONNECTING
    }

    /** `LobbyThreadManager::ProcessTask`, on the first task of the queue; `busy` says that another
        thread is working on the session. */
    method ProcessTask(busy: bool)
      requires Valid() && lobbyTasks != []
      modifies this, sessions, lobby
      ensures Valid()
      ensures View() == if busy && old(MayBeBusy(View(), lobbyTasks[0])) then Requeued(old(View()), 0) else LobbyRun(old(View()), 0)
    {
      hide Sessions, Entries, AddRun, ResultRun, EnterRun, DisconnectRun;
      var t := lobbyTasks[0];
      lobbyTasks := lobbyTasks[1..];
      assert View() == Popped(old(View()), 0);
      if t.Add? {
        ProcessAddSession(t.key);
      } else if t.Result? {
        ProcessTransitionResult(t.key, t.success);
      } else if t.Enter? || t.Disconnect? {
        ProcessOrRequeue(t, busy);
      }
    }

    /** A task whose session is busy, or whose room does not accept the removal, goes to the back. */
    method ProcessOrRequeue(t: Task, busy: bool)
      requires Valid() && (t.Enter? || t.Disconnect?)
      modifies this, sessions, lobby
      ensures Valid()
      ensures View() == if busy && old(MayBeBusy(View(), t)) then Sent(old(View()), t)
                        else if t.Enter? then EnterRun(old(View()), t.key, t.room)
                        else DisconnectRun(old(View()), t.key)
    {
      hide Sessions, Entries, EnterRun, DisconnectRun;
      var done: bool;
      if t.Enter? {
        done := ProcessEnterLobby(t.key, t.room, busy);
      } else {
        done := FinalizeDisconnect(t.key, busy);
      }
      if !done {
        lobbyTasks := lobbyTasks + [t];
      }
    }

    /** The failure of a room transition goes to the lobby. */
    method SendFailure(k: Key)
      requires Valid()
      modifies this`lobbyTasks, this`where
      ensures Valid() && View() == Failed(old(View()), k)
    {
      lobbyTasks := lobbyTasks + [Result(k, false)];
      if IsCurrent(k) {
        where := where[k.slot := InFailure];
      }
    }

    /** Only a session that is in the lobby, and stays to be, gets into the room; the lobby is told
        how it went. */
    method EnterRoom(k: Key, r: nat, room: Room)
      requires Valid() && r < rooms.Length
      modifies this`lobbyTasks, this`where, sessions, rooms
      ensures Valid()
      ensures View() == if MayEnter(old(View()), k) then Entered(old(View()), k, r, room) else Failed(old(View()), k)
    {
      hide Sessions, Entries;
      if !IsCurrent(k) {
        SendFailure(k);
        return;
      }
      ghost var before := Sessions(sessions);
      var entered := sessions[k.slot].TrySetRoomMode(k.id, r);
      OneSession(sessions, before, k.slot);
      if !entered {
        assert before[k.slot := before[k.slot]] == before;
        SendFailure(k);
        return;
      }
      rooms[r] := Some(room);
      lobbyTasks := lobbyTasks + [Result(k, true)];
      where := where[k.slot := InRoom(r, false)];
    }

    /** A room's join task; `admit` stands for the checks of `Rooms`. */
    method ProcessJoinTask(k: Key, r: nat, admit: bool)
      requires Valid() && r < rooms.Length && rooms[r].Some?
      modifies this`lobbyTasks, this`otherTasks, this`where, sessions, rooms
      ensures Valid() && View() == JoinRun(old(View()), k, r, admit)
    {
      hide Sessions, Entries;
      otherTasks := otherTasks - multiset{Join(k, r)};
      assert View() == old(View()).(work := otherTasks);
      var room := rooms[r].value;
      if admit && room.state == OPEN {
        EnterRoom(k, r, room.(players := room.players + {k}));
      } else {
        SendFailure(k);
      }
    }

    /** A creation takes the first free room index; without one it fails. */
    method ProcessCreateTask(k: Key, succeed: bool) returns (r: nat)
      requires Valid()
      modifies this`lobbyTasks, this`otherTasks, this`where, sessions, rooms
      ensures Valid() && r <= rooms.Length && forall q :: 0 <= q < r ==> old(rooms[q]).Some?
      ensures View() == CreateRun(old(View()), k, r, succeed)
    {
      hide Sessions, Entries;
      otherTasks := otherTasks - multiset{Create(k)};
      r := 0;
      while r < rooms.Length && rooms[r].Some?
        invariant r <= rooms.Length && forall q :: 0 <= q < r ==> rooms[q].Some?
      {
        r := r + 1;
      }
      if succeed && r < rooms.Length {
        EnterRoom(k, r, Room(OPEN, {k}));
      } else {
        SendFailure(k);
      }
    }

    /** `CompletePlayerRemoval` of a room, and on leaving for the lobby `RequestLobbyTransition`. */
    method RemovePlayerFromRoom(k: Key, r: nat, leaves: bool)
      requires Valid() && r < rooms.Length && rooms[r].Some?
      modifies this`lobbyTasks, this`where, sessions, rooms
      ensures Valid()
      ensures View() == if leaves then Left(old(View()), k, r) else SlotCleared(old(View()), k, r)
    {
      if k !in rooms[r].value.players {
        return;
      }
      hide Sessions, Entries, SlotCleared;
      ghost var told := if IsCurrent(k) then ToldOf(where[k.slot]) else true;
      ClearPlayer(k, r);
      if leaves {
        lobbyTasks := lobbyTasks + [Enter(k, r)];
        if IsCurrent(k) {
          where := where[k.slot := Leaving(r, told)];
        }
      }
    }

    method ClearPlayer(k: Key, r: nat)
      requires Valid() && r < rooms.Length && rooms[r].Some? && k in rooms[r].value.players
      modifies this`lobbyTasks, this`where, sessions, rooms
      ensures Valid() && View() == SlotCleared(old(View()), k, r)
      ensures IsCurrent(k) == old(IsCurrent(k))
    {
      hide Sessions, Entries, RoomDisconnected;
      rooms[r] := Some(RoomWithout(rooms[r].value, k));
      if IsCurrent(k) {
        where := where[k.slot := Lost(ToldOf(where[k.slot]))];
      }
      CompleteRoomDisconnect(k);
    }

    // ---------- A session's own tasks and I/O ----------

    /** A consumer of the session takes its disconnect: the other tasks go, and without I/O to wait
        for the lobby is told. */
    method ProcessDisconnect(i: nat)
      requires Valid() && i < |sessions| && sessions[i].lifeState == ACTIVE
      modifies this`lobbyTasks, sessions
      ensures Valid() && View() == DisconnectBegun(old(View()), i)
    {
      hide Sessions, Entries;
      ghost var before := Sessions(sessions);
      var k := Key(i, sessions[i].sessionId);
      var finished := sessions[i].BeginDisconnect(k.id);
      sessions[i].DiscardTasks();
      OneSession(sessions, before, i);
      if finished {
        lobbyTasks := lobbyTasks + [Disconnect(k)];
      }
    }

    method RegisterIO(k: Key)
      requires Valid()
      modifies sessions
      ensures Valid() && View() == Registered(old(View()), k)
    {
      if IsCurrent(k) {
        ghost var before := Sessions(sessions);
        var ok := sessions[k.slot].Register();
        OneSession(sessions, before, k.slot);
        assert before[k.slot := before[k.slot]] == before;
      }
    }

    /** A completion, whoever has its slot by now. */
    method CompleteSessionIO(k: Key)
      requires Valid()
      modifies this`lobbyTasks, sessions
      ensures Valid() && View() == Completed(old(View()), k)
    {
      if IsCurrent(k) {
        ghost var before := Sessions(sessions);
        var finished := sessions[k.slot].CompleteIO(k.id);
        OneSession(sessions, before, k.slot);
        assert before[k.slot := before[k.slot]] == before;
        if finished {
          lobbyTasks := lobbyTasks + [Disconnect(k)];
        }
      }
    }

    method EnqueueSessionTask(k: Key) returns (ok: bool)
      requires Valid()
      modifies sessions
      ensures Valid() && (ok <==> old(IsCurrent(k)) && old(sessions[k.slot].lifeState) == ACTIVE)
      ensures View() == Next(old(View()), AddSessionTask(k))
    {
      if !IsCurrent(k) {
        return false;
      }
      ghost var before := Sessions(sessions);
      ok := sessions[k.slot].TryEnqueueTask(k.id);
      OneSession(sessions, before, k.slot);
      assert before[k.slot := before[k.slot]] == before;
    }
  }

  /** The account that goes with a session. */
  function LoginsWithout(logins: map<nat, Key>, player: Option<nat>, k: Key): map<nat, Key> {
    if player.Some? && player.value in logins && logins[player.value] == k then logins - {player.value} else logins
  }

  lemma FreedInSteps(s: State, k: Key)
    requires Shaped(s) && Current(s, k)
    ensures var s1 := s.(logins := LoginsWithout(s.logins, s.sessions[k.slot].player, k));
            var s2 := WithEntry(s1, k.slot, Cleared(s1.entries[k.slot], k.id).0);
            var s3 := WithSession(s2, k.slot, FREE_SESSION);
            |s2.sessions| == |s3.where| == |s.where| && At(s3, k.slot, Nowhere) == Finalized(s, k)
  {
  }

  /** A session that may start a room transition. */
  ghost predicate LobbyReady(s: State, k: Key)
    requires Shaped(s)
  {
    MayEnter(s, k) && k.id != 0 && s.entries[k.slot] == Entry.Active(k.id)
  }
}
