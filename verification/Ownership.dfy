/** How one session is handed between the lobby and the rooms, and how its slot becomes free
    again. Every lobby, room, lifecycle and session task is one step; tasks may be taken from
    their queues in any order unless a theorem says otherwise. */
module Ownership {

  /** A session key: the session's slot and its id. Ids are never used twice. */
  datatype Key = Key(slot: nat, id: nat)

  datatype Option<T> = None | Some(value: T)

  datatype Life = NONE | ACTIVE | DISCONNECT_PENDING | DISCONNECTING

  datatype Mode = NoMode | LOGIN | LOBBY | ROOM(room: nat)

  /** `tasks` holds, for every queued session task, the id of the session it is meant for;
      `pending` counts its I/O. */
  datatype Session = Session(life: Life, mode: Mode, id: nat, player: Option<nat>, tasks: seq<nat>, pending: nat)

  /** The lobby's entry for a session slot. */
  datatype Entry = Empty | Pending(id: nat) | Active(id: nat)

  /** A room, as far as ownership goes: `OPEN` covers waiting and playing; `players` are the
      keys in its slots. */
  datatype RoomState = OPEN | CLOSING | POSTED

  datatype Room = Room(state: RoomState, players: set<Key>)

  /** The tasks in flight. Lobby tasks are `Add`, `Result`, `Enter` and `Disconnect`; `Join` and
      `Remove` wait in a room's queue, `Create` and `Delete` in the lifecycle queue. */
  datatype Task =
    | Add(key: Key)
    | Result(key: Key, success: bool)
    | Enter(key: Key, room: nat)
    | Disconnect(key: Key)
    | Join(key: Key, room: nat)
    | Remove(key: Key, room: nat)
    | Create(key: Key)
    | Delete(room: nat)

  /** Where a session is on its way, kept for the proofs only: no step depends on it. `told`
      says that the lobby has processed the success of the last room transition. */
  datatype Where =
    | Nowhere
    | InAdd
    | InLobby
    | InJoin(room: nat)
    | InCreate
    | InFailure
    | InRoom(room: nat, told: bool)
    | Leaving(room: nat, told: bool)
    | Lost(told: bool)

  /** `logins` maps the accounts that are logged in to their sessions; `lobby` is the lobby's
      task queue, in order, and `work` the other queues together. */
  datatype State = State(sessions: seq<Session>, entries: seq<Entry>, rooms: seq<Option<Room>>, logins: map<nat, Key>,
                         lobby: seq<Task>, work: multiset<Task>, nextId: nat, where: seq<Where>)

  // ---------- Looking things up ----------

  const FREE_SESSION := Session(NONE, NoMode, 0, None, [], 0)

  predicate Shaped(s: State) {
    |s.entries| == |s.sessions| == |s.where|
  }

  /** `FindSession` finds this key. */
  predicate Current(s: State, k: Key) {
    k.slot < |s.sessions| && s.sessions[k.slot].life != NONE && s.sessions[k.slot].id == k.id
  }

  function KeyAt(s: State, i: nat): Key
    requires i < |s.sessions|
  {
    Key(i, s.sessions[i].id)
  }

  predicate RoomExists(s: State, r: nat) {
    r < |s.rooms| && s.rooms[r].Some?
  }

  predicate IsIn(s: State, k: Key, r: nat) {
    RoomExists(s, r) && k in s.rooms[r].value.players
  }

  /** The lobby works on the tasks of this session. */
  predicate LobbyConsumes(s: State, i: nat)
    requires Shaped(s)
  {
    && i < |s.sessions| && s.entries[i] == Active(s.sessions[i].id) && s.sessions[i].life == ACTIVE
    && (s.sessions[i].mode == LOGIN || s.sessions[i].mode == LOBBY)
  }

  /** A room works on the tasks of this session. */
  predicate RoomConsumes(s: State, i: nat) {
    && i < |s.sessions| && s.sessions[i].life == ACTIVE && s.sessions[i].mode.ROOM?
    && IsIn(s, KeyAt(s, i), s.sessions[i].mode.room)
  }

  /** Session tasks run, and a disconnect begins, only in the loop of a consumer. */
  predicate Consumes(s: State, i: nat)
    requires Shaped(s)
  {
    LobbyConsumes(s, i) || RoomConsumes(s, i)
  }

  // ---------- Entries ----------

  function Prepared(e: Entry, id: nat): (Entry, bool) {
    if id != 0 && e == Empty then (Pending(id), true) else (e, false)
  }

  function SetPending(e: Entry, id: nat): (Entry, bool) {
    if id != 0 && e == Active(id) then (Pending(id), true) else (e, false)
  }

  function Activated(e: Entry, id: nat): (Entry, bool) {
    if id != 0 && e == Pending(id) then (Active(id), true) else (e, false)
  }

  function Cleared(e: Entry, id: nat): (Entry, bool) {
    if id != 0 && (e == Active(id) || e == Pending(id)) then (Empty, true) else (e, false)
  }

  // ---------- Steps ----------

  datatype Step =
    | Accept(slot: nat)
    | Login(slot: nat, player: nat)
    | BeginJoin(slot: nat, room: nat)
    | BeginCreate(slot: nat)
    | RunLobby(index: nat)
    | Requeue(index: nat)
    | RunJoin(key: Key, room: nat, admit: bool)
    | RunRemove(key: Key, room: nat)
    | RunCreate(key: Key, room: nat, succeed: bool)
    | RunDelete(room: nat)
    | Leave(key: Key, room: nat)
    | BeginDisconnect(slot: nat)
    | RegisterIO(key: Key)
    | CompleteIO(key: Key)
    | AddSessionTask(key: Key)
    | RunSessionTask(slot: nat)
    | PostDelete(room: nat)

  predicate CanStep(s: State, step: Step) {
    Shaped(s) &&
    match step
    case Accept(i) => i < |s.sessions| && s.sessions[i].life == NONE
    case Login(i, _) => LobbyConsumes(s, i)
    case BeginJoin(i, r) => LobbyConsumes(s, i) && s.sessions[i].mode == LOBBY && RoomExists(s, r)
    case BeginCreate(i) => LobbyConsumes(s, i) && s.sessions[i].mode == LOBBY
    case RunLobby(j) => j < |s.lobby|
    case Requeue(j) => j < |s.lobby| && MayBeBusy(s, s.lobby[j])
    case RunJoin(k, r, _) => Join(k, r) in s.work && RoomExists(s, r)
    case RunRemove(k, r) => Remove(k, r) in s.work && RoomExists(s, r)
    case RunCreate(k, _, _) => Create(k) in s.work
    case RunDelete(r) => Delete(r) in s.work
    case Leave(k, r) => RoomExists(s, r) && k in s.rooms[r].value.players
    case BeginDisconnect(i) => Consumes(s, i)
    case RegisterIO(_) => true
    case CompleteIO(_) => true
    case AddSessionTask(_) => true
    case RunSessionTask(i) => Consumes(s, i) && s.sessions[i].tasks != []
    case PostDelete(r) => RoomExists(s, r) && s.rooms[r].value.state == CLOSING && !RoomBusy(s, r)
  }

  /** A task that goes to the back of the lobby's queue if another thread is working on the
      session. */
  predicate MayBeBusy(s: State, t: Task) {
    match t
    case Enter(k, _) => Current(s, k) && s.sessions[k.slot].life == ACTIVE
    case Disconnect(k) => Current(s, k) && s.sessions[k.slot].life == DISCONNECTING
    case _ => false
  }

  predicate RoomBusy(s: State, r: nat) {
    exists t :: t in s.work && (t.Join? || t.Remove?) && t.room == r
  }

  function WithSession(s: State, i: nat, x: Session): State
    requires i < |s.sessions|
  {
    s.(sessions := s.sessions[i := x])
  }

  function WithEntry(s: State, i: nat, e: Entry): State
    requires i < |s.entries|
  {
    s.(entries := s.entries[i := e])
  }

  function At(s: State, i: nat, w: Where): State
    requires i < |s.where|
  {
    s.(where := s.where[i := w])
  }

  function Sent(s: State, t: Task): State {
    s.(lobby := s.lobby + [t])
  }

  /** `InitSession`, with the task that will put the session into the lobby. */
  function Accepted(s: State, i: nat): State
    requires Shaped(s) && i < |s.sessions|
  {
    var id := s.nextId;
    At(Sent(WithSession(s, i, Session(ACTIVE, LOGIN, id, None, [], 0)), Add(Key(i, id))), i, InAdd).(nextId := id + 1)
  }

  /** `ActivePlayerManager::AddPlayer`. */
  function LoggedIn(s: State, i: nat, p: nat): State
    requires Shaped(s) && i < |s.sessions|
  {
    var x := s.sessions[i];
    if p in s.logins || x.mode != LOGIN || x.life != ACTIVE then s
    else WithSession(s, i, x.(player := Some(p), mode := LOBBY)).(logins := s.logins[p := KeyAt(s, i)])
  }

  /** `TryJoinRoom`: the lobby entry goes into transition, and the room gets a join task. */
  function JoinBegun(s: State, i: nat, r: nat): State
    requires Shaped(s) && i < |s.sessions| && RoomExists(s, r)
  {
    var k := KeyAt(s, i);
    var (e, ok) := SetPending(s.entries[i], k.id);
    if !ok then s
    else if s.rooms[r].value.state == OPEN then At(WithEntry(s, i, e), i, InJoin(r)).(work := s.work + multiset{Join(k, r)})
    else At(Sent(WithEntry(s, i, e), Result(k, false)), i, InFailure)
  }

  function CreateBegun(s: State, i: nat): State
    requires Shaped(s) && i < |s.sessions|
  {
    var k := KeyAt(s, i);
    var (e, ok) := SetPending(s.entries[i], k.id);
    if !ok then s else At(WithEntry(s, i, e), i, InCreate).(work := s.work + multiset{Create(k)})
  }

  /** The failure of a room transition is on its way to the lobby. */
  function Failed(s: State, k: Key): State
    requires Shaped(s)
  {
    var s1 := Sent(s, Result(k, false));
    if Current(s, k) then At(s1, k.slot, InFailure) else s1
  }

  function Entered(s: State, k: Key, r: nat, room: Room): State
    requires Shaped(s) && Current(s, k) && r < |s.rooms|
  {
    var x := s.sessions[k.slot].(mode := ROOM(r));
    At(Sent(WithSession(s, k.slot, x), Result(k, true)), k.slot, InRoom(r, false)).(rooms := s.rooms[r := Some(room)])
  }

  predicate MayEnter(s: State, k: Key) {
    Current(s, k) && s.sessions[k.slot].life == ACTIVE && s.sessions[k.slot].mode == LOBBY
  }

  /** A room processes a join; `admit` covers the password, the free slot and the game state. */
  function JoinRun(s: State, k: Key, r: nat, admit: bool): State
    requires Shaped(s) && RoomExists(s, r)
  {
    var s1 := s.(work := s.work - multiset{Join(k, r)});
    var room := s.rooms[r].value;
    if MayEnter(s, k) && admit && room.state == OPEN then Entered(s1, k, r, room.(players := room.players + {k}))
    else Failed(s1, k)
  }

  /** The lifecycle processes a creation; `succeed` covers the request and the registries. */
  function CreateRun(s: State, k: Key, r: nat, succeed: bool): State
    requires Shaped(s)
  {
    var s1 := s.(work := s.work - multiset{Create(k)});
    if MayEnter(s, k) && succeed && r < |s.rooms| && s.rooms[r].None? then Entered(s1, k, r, Room(OPEN, {k}))
    else Failed(s1, k)
  }

  function RoomWithout(room: Room, k: Key): Room {
    var players := room.players - {k};
    Room(if players == {} then CLOSING else room.state, players)
  }

  /** `CompleteRoomDisconnect`: a session that is being disconnected is out of its room. */
  function RoomDisconnected(s: State, k: Key): State
    requires Shaped(s)
  {
    if Current(s, k) && s.sessions[k.slot].life != ACTIVE && s.sessions[k.slot].mode.ROOM? then
      var s1 := WithSession(s, k.slot, s.sessions[k.slot].(mode := NoMode));
      if s.sessions[k.slot].life == DISCONNECTING then Sent(s1, Disconnect(k)) else s1
    else s
  }

  function ToldOf(w: Where): bool {
    match w
    case InRoom(_, told) => told
    case Leaving(_, told) => told
    case Lost(told) => told
    case _ => true
  }

  /** `CompletePlayerRemoval`. */
  function SlotCleared(s: State, k: Key, r: nat): State
    requires Shaped(s) && RoomExists(s, r)
  {
    if k !in s.rooms[r].value.players then s
    else
      var s1 := s.(rooms := s.rooms[r := Some(RoomWithout(s.rooms[r].value, k))]);
      var s2 := if Current(s, k) then At(s1, k.slot, Lost(ToldOf(s.where[k.slot]))) else s1;
      RoomDisconnected(s2, k)
  }

  /** `RequestLobbyTransition`. */
  function Left(s: State, k: Key, r: nat): State
    requires Shaped(s) && RoomExists(s, r)
  {
    if k !in s.rooms[r].value.players then s
    else
      var s1 := Sent(SlotCleared(s, k, r), Enter(k, r));
      if Current(s, k) then At(s1, k.slot, Leaving(r, ToldOf(s.where[k.slot]))) else s1
  }

  function RemoveRun(s: State, k: Key, r: nat): State
    requires Shaped(s) && RoomExists(s, r)
  {
    Removed(s.(work := s.work - multiset{Remove(k, r)}), k, r)
  }

  /** An active player goes to the lobby; one who is being disconnected is just removed. */
  function Removed(s: State, k: Key, r: nat): State
    requires Shaped(s) && RoomExists(s, r)
  {
    if Current(s, k) && s.sessions[k.slot].life == ACTIVE then Left(s, k, r) else SlotCleared(s, k, r)
  }

  function DeleteRun(s: State, r: nat): State {
    var s1 := s.(work := s.work - multiset{Delete(r)});
    if r < |s.rooms| then s1.(rooms := s.rooms[r := None]) else s1
  }

  // ---------- Lobby tasks ----------

  function AddRun(s: State, k: Key): State
    requires Shaped(s)
  {
    if !Current(s, k) then s
    else
      var x := s.sessions[k.slot];
      if x.life != ACTIVE || (x.mode != LOGIN && x.mode != LOBBY) then At(s, k.slot, Lost(true))
      else
        var (e1, prepared) := Prepared(s.entries[k.slot], k.id);
        if prepared then At(WithEntry(s, k.slot, Activated(e1, k.id).0), k.slot, InLobby) else At(s, k.slot, Lost(true))
  }

  function ResultRun(s: State, k: Key, success: bool): State
    requires Shaped(s)
  {
    if k.slot >= |s.entries| then s
    else if success then
      var s1 := WithEntry(s, k.slot, Cleared(s.entries[k.slot], k.id).0);
      if Current(s, k) then At(s1, k.slot, Told(s.where[k.slot])) else s1
    else if !Current(s, k) then WithEntry(s, k.slot, Cleared(s.entries[k.slot], k.id).0)
    else
      var (e, ok) := Activated(s.entries[k.slot], k.id);
      if ok then At(WithEntry(s, k.slot, e), k.slot, InLobby) else At(s, k.slot, Lost(true))
  }

  function Told(w: Where): Where {
    match w
    case InRoom(r, _) => InRoom(r, true)
    case Leaving(r, _) => Leaving(r, true)
    case Lost(_) => Lost(true)
    case _ => w
  }

  function EnterRun(s: State, k: Key, r: nat): State
    requires Shaped(s)
  {
    if !Current(s, k) then s
    else
      var x := s.sessions[k.slot];
      var (e1, prepared) := Prepared(s.entries[k.slot], k.id);
      if x.life == ACTIVE && x.mode == ROOM(r) && prepared then
        At(WithEntry(WithSession(s, k.slot, x.(mode := LOBBY)), k.slot, Activated(e1, k.id).0), k.slot, InLobby)
      else At(s, k.slot, Lost(ToldOf(s.where[k.slot])))
  }

  /** The slot becomes free: the account is logged out, the lobby entry and the queued tasks
      are dropped. */
  function Finalized(s: State, k: Key): State
    requires Shaped(s) && Current(s, k)
  {
    var x := s.sessions[k.slot];
    var logins := if x.player.Some? && x.player.value in s.logins && s.logins[x.player.value] == k
                  then s.logins - {x.player.value} else s.logins;
    At(WithEntry(WithSession(s, k.slot, FREE_SESSION), k.slot, Cleared(s.entries[k.slot], k.id).0), k.slot, Nowhere).(logins := logins)
  }

  /** `TetrisServer::FinalizeDisconnect`; a task that cannot be finished goes to the back. */
  function DisconnectRun(s: State, k: Key): State
    requires Shaped(s)
  {
    if !Current(s, k) || s.sessions[k.slot].life != DISCONNECTING then s
    else if s.sessions[k.slot].mode.ROOM? then
      var r := s.sessions[k.slot].mode.room;
      if RoomExists(s, r) then
        if s.rooms[r].value.state == OPEN then s.(work := s.work + multiset{Remove(k, r)}) else Sent(s, Disconnect(k))
      else RoomDisconnected(s, k)
    else Finalized(s, k)
  }

  function LobbyRun(s: State, j: nat): State
    requires Shaped(s) && j < |s.lobby|
  {
    var t := s.lobby[j];
    var s1 := s.(lobby := s.lobby[..j] + s.lobby[j + 1..]);
    match t
    case Add(k) => AddRun(s1, k)
    case Result(k, success) => ResultRun(s1, k, success)
    case Enter(k, r) => EnterRun(s1, k, r)
    case Disconnect(k) => DisconnectRun(s1, k)
    case _ => s1
  }

  /** The session's other tasks are discarded; without I/O to wait for, the lobby finishes it. */
  function DisconnectBegun(s: State, i: nat): State
    requires Shaped(s) && i < |s.sessions|
  {
    var x := s.sessions[i].(tasks := []);
    if x.pending == 0 then Sent(WithSession(s, i, x.(life := DISCONNECTING)), Disconnect(KeyAt(s, i)))
    else WithSession(s, i, x.(life := DISCONNECT_PENDING))
  }

  /** A send or a receive of the session that has this key. */
  function Registered(s: State, k: Key): State {
    if Current(s, k) && s.sessions[k.slot].life == ACTIVE then
      WithSession(s, k.slot, s.sessions[k.slot].(pending := s.sessions[k.slot].pending + 1))
    else s
  }

  /** `CompleteSessionIO`: the last completion of a session being disconnected sends it on. */
  function Completed(s: State, k: Key): State {
    if !Current(s, k) || s.sessions[k.slot].pending == 0 then s
    else
      var x := s.sessions[k.slot].(pending := s.sessions[k.slot].pending - 1);
      if x.pending == 0 && x.life == DISCONNECT_PENDING then
        Sent(WithSession(s, k.slot, x.(life := DISCONNECTING)), Disconnect(k))
      else WithSession(s, k.slot, x)
  }

  function Requeued(s: State, j: nat): State
    requires j < |s.lobby|
  {
    s.(lobby := s.lobby[..j] + s.lobby[j + 1..] + [s.lobby[j]])
  }

  function Next(s: State, step: Step): State
    requires CanStep(s, step)
  {
    match step
    case Accept(i) => Accepted(s, i)
    case Login(i, p) => LoggedIn(s, i, p)
    case BeginJoin(i, r) => JoinBegun(s, i, r)
    case BeginCreate(i) => CreateBegun(s, i)
    case RunLobby(j) => LobbyRun(s, j)
    case Requeue(j) => Requeued(s, j)
    case RunJoin(k, r, admit) => JoinRun(s, k, r, admit)
    case RunRemove(k, r) => RemoveRun(s, k, r)
    case RunCreate(k, r, succeed) => CreateRun(s, k, r, succeed)
    case RunDelete(r) => DeleteRun(s, r)
    case Leave(k, r) => Left(s, k, r)
    case BeginDisconnect(i) => DisconnectBegun(s, i)
    case RegisterIO(k) => Registered(s, k)
    case CompleteIO(k) => Completed(s, k)
    case AddSessionTask(k) =>
      if Current(s, k) && s.sessions[k.slot].life == ACTIVE then
        WithSession(s, k.slot, s.sessions[k.slot].(tasks := s.sessions[k.slot].tasks + [k.id]))
      else s
    case RunSessionTask(i) => WithSession(s, i, s.sessions[i].(tasks := s.sessions[i].tasks[1..]))
    case PostDelete(r) =>
      s.(rooms := s.rooms[r := Some(s.rooms[r].value.(state := POSTED))], work := s.work + multiset{Delete(r)})
  }

  // ---------- The invariant ----------

  /** All tasks in flight. */
  ghost function Tasks(s: State): multiset<Task> {
    multiset(s.lobby) + s.work
  }

  function Bit(b: bool): nat {
    if b then 1 else 0
  }

  predicate Untold(w: Where) {
    (w.InRoom? || w.Leaving? || w.Lost?) && !w.told
  }

  /** The tasks that carry a session from one owner to the next, or tell the lobby that it is
      gone. */
  predicate Carries(t: Task, k: Key) {
    (t.Add? || t.Create? || t.Result? || t.Join? || t.Enter?) && t.key == k
  }

  /** Those of them that are in flight for a session that is at `w`. */
  function Due(k: Key, w: Where): multiset<Task> {
    match w
    case InAdd => multiset{Add(k)}
    case InJoin(r) => multiset{Join(k, r)}
    case InCreate => multiset{Create(k)}
    case InFailure => multiset{Result(k, false)}
    case InRoom(_, told) => if told then multiset{} else multiset{Result(k, true)}
    case Leaving(r, told) => multiset{Enter(k, r)} + if told then multiset{} else multiset{Result(k, true)}
    case Lost(told) => if told then multiset{} else multiset{Result(k, true)}
    case _ => multiset{}
  }

  /** The tasks and room slots that carry a session's key are those its place calls for. */
  ghost predicate Carried(s: State, k: Key, w: Where) {
    && (forall t :: Carries(t, k) ==> Tasks(s)[t] == Due(k, w)[t])
    && (forall r: nat :: IsIn(s, k, r) <==> w.InRoom? && w.room == r)
  }

  function EntryFor(w: Where, id: nat): Entry {
    match w
    case Nowhere => Empty
    case InAdd => Empty
    case InLobby => Active(id)
    case InRoom(_, told) => if told then Empty else Pending(id)
    case Leaving(_, told) => if told then Empty else Pending(id)
    case Lost(told) => if told then Empty else Pending(id)
    case _ => Pending(id)
  }

  predicate ModeFits(w: Where, x: Session) {
    && (x.mode == NoMode ==> x.life != ACTIVE)
    && (x.mode == LOGIN ==> x.player == None)
    && match w
       case Nowhere => false
       case InAdd => x.mode == LOGIN
       case InLobby => x.mode == LOGIN || x.mode == LOBBY
       case InRoom(r, _) => x.mode == ROOM(r)
       case Leaving(r, _) => x.mode == ROOM(r) || x.mode == NoMode
       case Lost(_) => true
       case _ => x.mode == LOBBY
  }

  ghost predicate SlotOk(s: State, i: nat)
    requires Shaped(s) && i < |s.sessions|
  {
    var x := s.sessions[i];
    if x.life == NONE then x == FREE_SESSION && s.entries[i] == Empty && s.where[i] == Nowhere
    else
      && 0 < x.id < s.nextId
      && s.entries[i] == EntryFor(s.where[i], x.id)
      && ModeFits(s.where[i], x)
      && (forall n :: 0 <= n < |x.tasks| ==> x.tasks[n] == x.id)
      && Carried(s, Key(i, x.id), s.where[i])
  }

  ghost predicate SlotsOk(s: State) {
    Shaped(s) && forall i :: 0 <= i < |s.sessions| ==> SlotOk(s, i)
  }

  /** Players in rooms are current sessions; a room in deletion is empty, and the request for
      it is in flight exactly once. */
  ghost predicate RoomsOk(s: State) {
    && (forall k: Key, r: nat :: IsIn(s, k, r) ==> Current(s, k))
    && (forall r: nat :: RoomExists(s, r) && s.rooms[r].value.players != {} ==> s.rooms[r].value.state == OPEN)
    && (forall r: nat :: s.work[Delete(r)] == Bit(RoomExists(s, r) && s.rooms[r].value.state == POSTED))
    && (forall t :: t in s.work && (t.Join? || t.Remove?) ==> RoomExists(s, t.room) && s.rooms[t.room].value.state != POSTED)
  }

  /** An account is logged in with at most one live session. */
  ghost predicate LoginsOk(s: State) {
    && (forall p :: p in s.logins ==> Current(s, s.logins[p]) && s.sessions[s.logins[p].slot].player == Some(p))
    && (forall i :: 0 <= i < |s.sessions| && s.sessions[i].player.Some? ==>
          s.sessions[i].player.value in s.logins && s.logins[s.sessions[i].player.value] == KeyAt(s, i))
  }

  predicate IsLobbyTask(t: Task) {
    t.Add? || t.Result? || t.Enter? || t.Disconnect?
  }

  /** Every queue holds its own kind of tasks, and none with an id from the future. */
  ghost predicate TasksOk(s: State) {
    && (forall t :: t in multiset(s.lobby) ==> IsLobbyTask(t))
    && (forall t :: t in s.work ==> !IsLobbyTask(t))
    && (forall t :: t in Tasks(s) && !t.Delete? ==> t.key.id < s.nextId)
  }

  ghost predicate Inv(s: State) {
    SlotsOk(s) && RoomsOk(s) && LoginsOk(s) && TasksOk(s) && s.nextId > 0
  }

  // ---------- Frames ----------

  predicate About(t: Task, k: Key) {
    t.Delete? || t.key == k
  }

  /** From `s` to `s'` the tasks `gone` went and the tasks `come` came, all of them about the key
      `k`, and no other key went into or out of a room. */
  ghost predicate Moves(s: State, s': State, k: Key, gone: multiset<Task>, come: multiset<Task>) {
    && Tasks(s') + gone == Tasks(s) + come
    && (forall t :: t in gone || t in come ==> About(t, k))
    && (forall l: Key, r: nat :: l != k ==> (IsIn(s', l, r) <==> IsIn(s, l, r)))
  }

  /** Only the slot of `k` was touched. */
  ghost predicate Touches(s: State, s': State, k: Key) {
    && Shaped(s) && Shaped(s') && |s'.sessions| == |s.sessions| && s.nextId <= s'.nextId
    && (forall j :: 0 <= j < |s.sessions| && j != k.slot ==>
          s'.sessions[j] == s.sessions[j] && s'.entries[j] == s.entries[j] && s'.where[j] == s.where[j])
  }

  lemma OtherSlot(s: State, s': State, k: Key, gone: multiset<Task>, come: multiset<Task>, j: nat)
    requires Touches(s, s', k) && Moves(s, s', k, gone, come) && j < |s.sessions| && KeyAt(s, j) != k && SlotOk(s, j)
    requires s'.sessions[j] == s.sessions[j] && s'.entries[j] == s.entries[j] && s'.where[j] == s.where[j]
    ensures SlotOk(s', j)
  {
    hide Tasks, Due, EntryFor, ModeFits;
    var l := KeyAt(s, j);
    if s.sessions[j].life != NONE {
      forall t | Carries(t, l)
        ensures Tasks(s')[t] == Due(l, s.where[j])[t]
      {
        assert !About(t, k);
        assert (Tasks(s') + gone)[t] == (Tasks(s) + come)[t];
      }
      assert Carried(s', l, s.where[j]);
    }
  }

  /** The tasks that went and came are what takes a session from `w` to `w'`. */
  ghost predicate Balanced(k: Key, w: Where, w': Where, gone: multiset<Task>, come: multiset<Task>) {
    forall t :: Carries(t, k) ==> Due(k, w')[t] + gone[t] == Due(k, w)[t] + come[t]
  }

  lemma OwnCarried(s: State, s': State, k: Key, gone: multiset<Task>, come: multiset<Task>, w: Where, w': Where)
    requires Moves(s, s', k, gone, come) && Carried(s, k, w) && Balanced(k, w, w', gone, come)
    requires forall r: nat :: IsIn(s', k, r) <==> w'.InRoom? && w'.room == r
    ensures Carried(s', k, w')
  {
    hide Tasks, Due, Carries;
    forall t | Carries(t, k)
      ensures Tasks(s')[t] == Due(k, w')[t]
    {
      assert (Tasks(s') + gone)[t] == (Tasks(s) + come)[t];
    }
  }

  /** A step about the key `k` keeps all slots if it keeps that key's own. */
  lemma StepKeepsSlots(s: State, s': State, k: Key, gone: multiset<Task>, come: multiset<Task>)
    requires SlotsOk(s) && Touches(s, s', k) && Moves(s, s', k, gone, come)
    requires k.slot < |s.sessions| ==> SlotOk(s', k.slot)
    ensures SlotsOk(s')
  {
    hide SlotOk, Moves;
    forall j | 0 <= j < |s'.sessions|
      ensures SlotOk(s', j)
    {
      if j != k.slot {
        OtherSlot(s, s', k, gone, come, j);
      }
    }
  }

  /** A step about a key that is not a current session's leaves every slot alone. */
  lemma StaleKeepsSlots(s: State, s': State, k: Key, gone: multiset<Task>, come: multiset<Task>)
    requires SlotsOk(s) && Moves(s, s', k, gone, come) && !Current(s, k)
    requires s'.sessions == s.sessions && s'.entries == s.entries && s'.where == s.where && s.nextId <= s'.nextId
    ensures SlotsOk(s')
  {
    hide Moves, Due, EntryFor, ModeFits, Carried;
    forall j | 0 <= j < |s'.sessions|
      ensures SlotOk(s', j)
    {
      assert SlotOk(s, j);
      if s.sessions[j].life != NONE {
        OtherSlot(s, s', k, gone, come, j);
      }
    }
  }

  predicate TasksFit(x: Session) {
    forall n :: 0 <= n < |x.tasks| ==> x.tasks[n] == x.id
  }

  /** A current session moves from one place to another, and the tasks balance. */
  lemma Transit(s: State, s': State, i: nat, w': Where, gone: multiset<Task>, come: multiset<Task>)
    requires SlotsOk(s) && i < |s.sessions| && s.sessions[i].life != NONE
    requires Touches(s, s', KeyAt(s, i)) && Moves(s, s', KeyAt(s, i), gone, come)
    requires Balanced(KeyAt(s, i), s.where[i], w', gone, come)
    requires forall r: nat :: IsIn(s', KeyAt(s, i), r) <==> w'.InRoom? && w'.room == r
    requires s'.sessions[i].life != NONE && s'.sessions[i].id == s.sessions[i].id && TasksFit(s'.sessions[i])
    requires s'.where[i] == w' && s'.entries[i] == EntryFor(w', s.sessions[i].id) && ModeFits(w', s'.sessions[i])
    ensures SlotsOk(s')
  {
    assert SlotOk(s, i);
    hide SlotsOk, IsIn, Moves, Carried, Balanced, EntryFor, ModeFits;
    OwnCarried(s, s', KeyAt(s, i), gone, come, s.where[i], w');
    StepKeepsSlots(s, s', KeyAt(s, i), gone, come);
  }

  lemma TasksMoved(s: State, s': State, k: Key, sent: seq<Task>, gone: multiset<Task>, added: multiset<Task>, come: multiset<Task>)
    requires s'.lobby == s.lobby + sent && s'.work + gone == s.work + added && come == multiset(sent) + added
    requires forall t :: t in gone || t in come ==> About(t, k)
    requires forall l: Key, r: nat :: l != k ==> (IsIn(s', l, r) <==> IsIn(s, l, r))
    ensures Moves(s, s', k, gone, come)
  {
    hide IsIn, About;
    assert multiset(s'.lobby) == multiset(s.lobby) + multiset(sent);
    forall t: Task
      ensures (Tasks(s') + gone)[t] == (Tasks(s) + come)[t]
    {
      assert (s'.work + gone)[t] == (s.work + added)[t];
    }
  }

  /** The lobby's task number `j` goes, and others come. */
  lemma LobbyMoved(s: State, s': State, k: Key, j: nat, sent: seq<Task>, added: multiset<Task>, come: multiset<Task>)
    requires j < |s.lobby| && s'.lobby == s.lobby[..j] + s.lobby[j + 1..] + sent && s'.work == s.work + added
    requires come == multiset(sent) + added && About(s.lobby[j], k) && s'.rooms == s.rooms
    requires forall t :: t in come ==> About(t, k)
    ensures Moves(s, s', k, multiset{s.lobby[j]}, come)
  {
    hide About;
    assert s.lobby == s.lobby[..j] + [s.lobby[j]] + s.lobby[j + 1..];
    assert multiset(s'.lobby) + multiset{s.lobby[j]} == multiset(s.lobby) + multiset(sent);
    forall t: Task
      ensures (Tasks(s') + multiset{s.lobby[j]})[t] == (Tasks(s) + come)[t]
    {
      assert (multiset(s'.lobby) + multiset{s.lobby[j]})[t] == (multiset(s.lobby) + multiset(sent))[t];
    }
  }

  lemma RoomsUnchanged(s: State, s': State)
    requires s'.rooms == s.rooms
    ensures forall l: Key, r: nat :: IsIn(s', l, r) <==> IsIn(s, l, r)
  {
  }

  /** What is known of a slot whose session is alive. */
  lemma SlotFacts(s: State, i: nat)
    requires SlotsOk(s) && i < |s.sessions|
    ensures if s.sessions[i].life == NONE then s.sessions[i] == FREE_SESSION && s.entries[i] == Empty && s.where[i] == Nowhere
            else
              var (x, w) := (s.sessions[i], s.where[i]);
              && 0 < x.id < s.nextId && s.entries[i] == EntryFor(w, x.id) && ModeFits(w, x) && TasksFit(x)
              && Carried(s, KeyAt(s, i), w)
              && (forall r: nat :: IsIn(s, KeyAt(s, i), r) <==> w.InRoom? && w.room == r)
  {
    assert SlotOk(s, i);
    hide Tasks, IsIn;
  }

  /** A task in flight that carries a current session tells where the session is. */
  lemma TaskTells(s: State, t: Task, k: Key)
    requires SlotsOk(s) && Current(s, k) && Carries(t, k) && t in Tasks(s)
    ensures t in Due(k, s.where[k.slot])
  {
    assert SlotOk(s, k.slot);
    hide Tasks, IsIn;
  }

  // ---------- Sessions ----------

  /** Nothing carries a key that has not been given out yet. */
  lemma FreshIsUncarried(s: State, i: nat)
    requires RoomsOk(s) && TasksOk(s) && i < |s.sessions| && s.sessions[i].life == NONE
    ensures Carried(s, Key(i, s.nextId), Nowhere)
  {
    var k := Key(i, s.nextId);
    forall t | Carries(t, k)
      ensures t !in Tasks(s)
    {
    }
    forall r: nat
      ensures !IsIn(s, k, r)
    {
      assert !Current(s, k);
    }
  }

  lemma AcceptSlots(s: State, i: nat)
    requires SlotsOk(s) && RoomsOk(s) && TasksOk(s) && s.nextId > 0 && i < |s.sessions| && s.sessions[i].life == NONE
    ensures SlotsOk(Accepted(s, i))
  {
    SlotFacts(s, i);
    FreshIsUncarried(s, i);
    hide SlotsOk, RoomsOk, TasksOk, Tasks, IsIn, Moves, Balanced;
    var s' := Accepted(s, i);
    var k := Key(i, s.nextId);
    var come := multiset{Add(k)};
    RoomsUnchanged(s, s');
    TasksMoved(s, s', k, [Add(k)], multiset{}, multiset{}, come);
    BalancedBegin(k, 0);
    OwnCarried(s, s', k, multiset{}, come, Nowhere, InAdd);
    hide Carried;
    StepKeepsSlots(s, s', k, multiset{}, come);
  }

  lemma BalancedBegin(k: Key, r: nat)
    ensures Balanced(k, Nowhere, InAdd, multiset{}, multiset{Add(k)})
    ensures Balanced(k, InLobby, InCreate, multiset{}, multiset{Create(k)})
    ensures Balanced(k, InLobby, InFailure, multiset{}, multiset{Result(k, false)})
    ensures Balanced(k, InLobby, InJoin(r), multiset{}, multiset{Join(k, r)})
  {
  }

  /** Tasks that carry nobody leave the balance as it is. */
  lemma BalancedStay(k: Key, w: Where, gone: multiset<Task>, come: multiset<Task>)
    requires forall t :: t in gone || t in come ==> !Carries(t, k)
    ensures Balanced(k, w, w, gone, come)
  {
    hide Due, Carries;
  }

  /** A step that changes a session's own fields and sends at most its disconnect task. */
  lemma SessionSlots(s: State, s': State, i: nat, sent: seq<Task>)
    requires SlotsOk(s) && Shaped(s') && i < |s.sessions| && s.sessions[i].life != NONE && |s'.sessions| == |s.sessions|
    requires s'.sessions == s.sessions[i := s'.sessions[i]] && s'.entries == s.entries && s'.where == s.where
    requires s'.rooms == s.rooms && s'.work == s.work && s'.nextId == s.nextId && s'.lobby == s.lobby + sent
    requires sent == [] || sent == [Disconnect(KeyAt(s, i))]
    requires s'.sessions[i].life != NONE && s'.sessions[i].id == s.sessions[i].id && TasksFit(s'.sessions[i])
    requires ModeFits(s.where[i], s'.sessions[i])
    ensures SlotsOk(s')
  {
    SlotFacts(s, i);
    hide SlotsOk, Tasks, IsIn, Moves, Balanced, Carried, ModeFits, TasksFit, Due;
    var k := KeyAt(s, i);
    RoomsUnchanged(s, s');
    TasksMoved(s, s', k, sent, multiset{}, multiset{}, multiset(sent));
    BalancedStay(k, s.where[i], multiset{}, multiset(sent));
    Transit(s, s', i, s.where[i], multiset{}, multiset(sent));
  }

  lemma LoginSlots(s: State, i: nat, p: nat)
    requires SlotsOk(s) && LobbyConsumes(s, i)
    ensures SlotsOk(LoggedIn(s, i, p))
  {
    SlotFacts(s, i);
    hide SlotsOk, Carried, IsIn;
    var s' := LoggedIn(s, i, p);
    if s' != s {
      SessionSlots(s, s'.(logins := s.logins), i, []);
      OnlyLogins(s'.(logins := s.logins), s');
    }
  }

  lemma OnlyLogins(s: State, s': State)
    requires SlotsOk(s) && s' == s.(logins := s'.logins)
    ensures SlotsOk(s')
  {
    forall i | 0 <= i < |s'.sessions|
      ensures SlotOk(s', i)
    {
      assert SlotOk(s, i);
      assert forall l: Key, r: nat :: IsIn(s', l, r) <==> IsIn(s, l, r);
    }
  }

  /** A transition begins: the lobby entry goes pending and one task carries the session on. */
  lemma TransitionBegins(s: State, s': State, i: nat, w': Where, t: Task)
    requires SlotsOk(s) && LobbyConsumes(s, i) && s.sessions[i].mode == LOBBY
    requires Balanced(KeyAt(s, i), InLobby, w', multiset{}, multiset{t}) && About(t, KeyAt(s, i))
    requires w'.InJoin? || w'.InFailure? || w'.InCreate?
    requires s'.sessions == s.sessions && s'.rooms == s.rooms && s'.nextId == s.nextId
    requires s'.entries == s.entries[i := Pending(s.sessions[i].id)] && s'.where == s.where[i := w']
    requires (s'.lobby == s.lobby + [t] && s'.work == s.work) || (s'.lobby == s.lobby && s'.work == s.work + multiset{t})
    ensures SlotsOk(s')
  {
    SlotFacts(s, i);
    RoomsUnchanged(s, s');
    hide SlotsOk, Tasks, IsIn, Moves, Carried, Balanced, TasksFit, Due;
    if s'.lobby == s.lobby + [t] {
      TasksMoved(s, s', KeyAt(s, i), [t], multiset{}, multiset{}, multiset{t});
    } else {
      TasksMoved(s, s', KeyAt(s, i), [], multiset{}, multiset{t}, multiset{t});
    }
    Transit(s, s', i, w', multiset{}, multiset{t});
  }

  lemma JoinBegunSlots(s: State, i: nat, r: nat)
    requires SlotsOk(s) && LobbyConsumes(s, i) && s.sessions[i].mode == LOBBY && RoomExists(s, r)
    ensures SlotsOk(JoinBegun(s, i, r))
  {
    SlotFacts(s, i);
    var k := KeyAt(s, i);
    BalancedBegin(k, r);
    hide SlotsOk, Balanced, Carried, TasksFit;
    if s.rooms[r].value.state == OPEN {
      TransitionBegins(s, JoinBegun(s, i, r), i, InJoin(r), Join(k, r));
    } else {
      TransitionBegins(s, JoinBegun(s, i, r), i, InFailure, Result(k, false));
    }
  }

  lemma CreateBegunSlots(s: State, i: nat)
    requires SlotsOk(s) && LobbyConsumes(s, i) && s.sessions[i].mode == LOBBY
    ensures SlotsOk(CreateBegun(s, i))
  {
    SlotFacts(s, i);
    BalancedBegin(KeyAt(s, i), 0);
    hide SlotsOk, Balanced, Carried, TasksFit;
    TransitionBegins(s, CreateBegun(s, i), i, InCreate, Create(KeyAt(s, i)));
  }

  // ---------- Rooms ----------

  lemma BalancedTransition(k: Key, r: nat)
    ensures Balanced(k, InJoin(r), InRoom(r, false), multiset{Join(k, r)}, multiset{Result(k, true)})
    ensures Balanced(k, InCreate, InRoom(r, false), multiset{Create(k)}, multiset{Result(k, true)})
    ensures Balanced(k, InJoin(r), InFailure, multiset{Join(k, r)}, multiset{Result(k, false)})
    ensures Balanced(k, InCreate, InFailure, multiset{Create(k)}, multiset{Result(k, false)})
  {
  }

  predicate IsTransition(t: Task, k: Key, r: nat) {
    t == Join(k, r) || t == Create(k)
  }

  lemma TransitionTells(s: State, t: Task, k: Key, r: nat)
    requires SlotsOk(s) && Current(s, k) && IsTransition(t, k, r) && t in s.work
    ensures s.where[k.slot] == if t.Join? then InJoin(r) else InCreate
  {
    TaskTells(s, t, k);
  }

  /** A room transition that fails. */
  lemma FailedSlots(s: State, t: Task, k: Key, r: nat)
    requires SlotsOk(s) && t in s.work && IsTransition(t, k, r)
    ensures SlotsOk(Failed(s.(work := s.work - multiset{t}), k))
  {
    var s' := Failed(s.(work := s.work - multiset{t}), k);
    assert s'.work + multiset{t} == s.work + multiset{};
    RoomsUnchanged(s, s');
    TasksMoved(s, s', k, [Result(k, false)], multiset{t}, multiset{}, multiset{Result(k, false)});
    hide SlotsOk, Moves, IsTransition;
    if Current(s, k) {
      FailureArrives(s, s', t, k, r);
    } else {
      StaleKeepsSlots(s, s', k, multiset{t}, multiset{Result(k, false)});
    }
  }

  lemma FailureArrives(s: State, s': State, t: Task, k: Key, r: nat)
    requires SlotsOk(s) && t in s.work && IsTransition(t, k, r) && Current(s, k)
    requires s' == Failed(s.(work := s.work - multiset{t}), k)
    requires Moves(s, s', k, multiset{t}, multiset{Result(k, false)})
    ensures SlotsOk(s')
  {
    SlotFacts(s, k.slot);
    TransitionTells(s, t, k, r);
    RoomsUnchanged(s, s');
    BalancedTransition(k, r);
    hide SlotsOk, Tasks, IsIn, Moves, Carried, Balanced, TasksFit, Due;
    Transit(s, s', k.slot, InFailure, multiset{t}, multiset{Result(k, false)});
  }

  lemma RoomEntered(s: State, s': State, k: Key, r: nat)
    requires r < |s.rooms| == |s'.rooms| && s'.rooms == s.rooms[r := s'.rooms[r]] && s'.rooms[r].Some?
    requires forall q: nat :: !IsIn(s, k, q)
    requires s'.rooms[r].value.players == (if s.rooms[r].Some? then s.rooms[r].value.players else {}) + {k}
    ensures forall l: Key, q: nat :: IsIn(s', l, q) <==> IsIn(s, l, q) || (l == k && q == r)
  {
  }

  /** A room transition that succeeds. */
  lemma EnteredSlots(s: State, t: Task, k: Key, r: nat, room: Room)
    requires SlotsOk(s) && t in s.work && IsTransition(t, k, r) && MayEnter(s, k) && r < |s.rooms|
    requires room.players == (if s.rooms[r].Some? then s.rooms[r].value.players else {}) + {k}
    ensures SlotsOk(Entered(s.(work := s.work - multiset{t}), k, r, room))
  {
    var s' := Entered(s.(work := s.work - multiset{t}), k, r, room);
    assert s'.work + multiset{t} == s.work + multiset{};
    SlotFacts(s, k.slot);
    TransitionTells(s, t, k, r);
    hide SlotsOk, Tasks, IsIn, Carried, Balanced, Due, EntryFor, ModeFits, TasksFit;
    RoomEntered(s, s', k, r);
    TasksMoved(s, s', k, [Result(k, true)], multiset{t}, multiset{}, multiset{Result(k, true)});
    hide Moves;
    EntryArrives(s, s', t, k, r, room);
  }

  lemma EntryArrives(s: State, s': State, t: Task, k: Key, r: nat, room: Room)
    requires SlotsOk(s) && t in s.work && IsTransition(t, k, r) && MayEnter(s, k) && r < |s.rooms|
    requires s' == Entered(s.(work := s.work - multiset{t}), k, r, room)
    requires forall q: nat :: IsIn(s', k, q) <==> q == r
    requires Moves(s, s', k, multiset{t}, multiset{Result(k, true)})
    ensures SlotsOk(s')
  {
    SlotFacts(s, k.slot);
    TransitionTells(s, t, k, r);
    BalancedTransition(k, r);
    hide SlotsOk, Tasks, IsIn, Moves, Carried, Balanced, TasksFit, Due;
    Transit(s, s', k.slot, InRoom(r, false), multiset{t}, multiset{Result(k, true)});
  }

  lemma JoinRunSlots(s: State, k: Key, r: nat, admit: bool)
    requires SlotsOk(s) && Join(k, r) in s.work && RoomExists(s, r)
    ensures SlotsOk(JoinRun(s, k, r, admit))
  {
    hide SlotsOk;
    var room := s.rooms[r].value;
    if MayEnter(s, k) && admit && room.state == OPEN {
      EnteredSlots(s, Join(k, r), k, r, room.(players := room.players + {k}));
    } else {
      FailedSlots(s, Join(k, r), k, r);
    }
  }

  lemma CreateRunSlots(s: State, k: Key, r: nat, succeed: bool)
    requires SlotsOk(s) && Create(k) in s.work
    ensures SlotsOk(CreateRun(s, k, r, succeed))
  {
    hide SlotsOk;
    if MayEnter(s, k) && succeed && r < |s.rooms| && s.rooms[r].None? {
      EnteredSlots(s, Create(k), k, r, Room(OPEN, {k}));
    } else {
      FailedSlots(s, Create(k), k, r);
    }
  }

  lemma BalancedLeave(k: Key, r: nat, told: bool)
    ensures Balanced(k, InRoom(r, told), Lost(told), multiset{}, multiset{})
    ensures Balanced(k, InRoom(r, told), Leaving(r, told), multiset{}, multiset{Enter(k, r)})
  {
  }

  /** Tasks that carry nobody may come on top. */
  lemma BalancedBesides(k: Key, w: Where, w': Where, come: multiset<Task>, more: multiset<Task>)
    requires Balanced(k, w, w', multiset{}, come) && forall t :: t in more ==> !Carries(t, k)
    ensures Balanced(k, w, w', multiset{}, come + more)
  {
    hide Due, Carries;
  }

  lemma RoomLeft(s: State, s': State, k: Key, r: nat)
    requires IsIn(s, k, r) && s'.rooms == s.rooms[r := Some(RoomWithout(s.rooms[r].value, k))]
    requires forall q: nat :: IsIn(s, k, q) <==> q == r
    ensures forall l: Key, q: nat :: IsIn(s', l, q) <==> IsIn(s, l, q) && l != k
  {
  }

  /** The disconnect task a removal may send. */
  function Farewell(s: State, k: Key): seq<Task>
    requires Current(s, k)
  {
    if s.sessions[k.slot].life == DISCONNECTING then [Disconnect(k)] else []
  }

  /** What a removal does to a player who is in the room. */
  lemma ClearedState(s: State, k: Key, r: nat)
    requires Shaped(s) && IsIn(s, k, r) && Current(s, k) && s.sessions[k.slot].mode == ROOM(r)
    ensures var (s', i) := (SlotCleared(s, k, r), k.slot);
            && s'.rooms == s.rooms[r := Some(RoomWithout(s.rooms[r].value, k))]
            && s'.lobby == s.lobby + Farewell(s, k) && s'.work == s.work && s'.entries == s.entries && s'.nextId == s.nextId
            && s'.sessions == s.sessions[i := s.sessions[i].(mode := if s.sessions[i].life == ACTIVE then ROOM(r) else NoMode)]
            && s'.where == s.where[i := Lost(ToldOf(s.where[i]))] && s'.logins == s.logins
  {
    assert s.sessions[k.slot := s.sessions[k.slot]] == s.sessions;
  }

  /** A player gives up a slot in a room, and on leaving for the lobby a task says so. */
  ghost predicate GivesUp(s: State, s': State, k: Key, r: nat, w': Where, last: seq<Task>)
    requires Shaped(s) && Current(s, k) && RoomExists(s, r)
  {
    var i := k.slot;
    && s'.rooms == s.rooms[r := Some(RoomWithout(s.rooms[r].value, k))] && s'.nextId == s.nextId && s'.entries == s.entries
    && s'.lobby == s.lobby + Farewell(s, k) + last && s'.work == s.work
    && s'.sessions == s.sessions[i := s.sessions[i].(mode := if s.sessions[i].life == ACTIVE then ROOM(r) else NoMode)]
    && s'.where == s.where[i := w']
  }

  predicate IsExit(k: Key, r: nat, w: Where, w': Where, last: seq<Task>) {
    w.InRoom? && w.room == r && ((last == [] && w' == Lost(w.told)) || (last == [Enter(k, r)] && w' == Leaving(r, w.told)))
  }

  lemma ExitBalanced(s: State, k: Key, r: nat, w: Where, w': Where, last: seq<Task>)
    requires Current(s, k) && IsExit(k, r, w, w', last)
    ensures Balanced(k, w, w', multiset{}, multiset(last) + multiset(Farewell(s, k)))
  {
    BalancedLeave(k, r, w.told);
    hide Balanced, Due;
    assert multiset([Enter(k, r)]) == multiset{Enter(k, r)};
    BalancedBesides(k, w, w', multiset(last), multiset(Farewell(s, k)));
  }

  lemma ExitMoves(s: State, s': State, k: Key, r: nat, w': Where, last: seq<Task>)
    requires IsIn(s, k, r) && Shaped(s) && Current(s, k) && IsExit(k, r, s.where[k.slot], w', last) && GivesUp(s, s', k, r, w', last)
    requires forall q: nat :: IsIn(s, k, q) <==> q == r
    ensures Moves(s, s', k, multiset{}, multiset(last) + multiset(Farewell(s, k)))
    ensures forall q: nat :: !IsIn(s', k, q)
  {
    RoomLeft(s, s', k, r);
    hide IsIn, Tasks;
    assert multiset(Farewell(s, k) + last) == multiset(last) + multiset(Farewell(s, k));
    assert s.lobby + Farewell(s, k) + last == s.lobby + (Farewell(s, k) + last);
    TasksMoved(s, s', k, Farewell(s, k) + last, multiset{}, multiset{}, multiset(last) + multiset(Farewell(s, k)));
  }

  lemma RemovalSlots(s: State, s': State, k: Key, r: nat, w': Where, last: seq<Task>)
    requires SlotsOk(s) && IsIn(s, k, r) && Current(s, k) && IsExit(k, r, s.where[k.slot], w', last) && GivesUp(s, s', k, r, w', last)
    ensures SlotsOk(s')
  {
    SlotFacts(s, k.slot);
    ExitMoves(s, s', k, r, w', last);
    ExitBalanced(s, k, r, s.where[k.slot], w', last);
    hide SlotsOk, IsIn, Moves, Carried, Balanced, Farewell;
    Transit(s, s', k.slot, w', multiset{}, multiset(last) + multiset(Farewell(s, k)));
  }

  lemma PlayerFacts(s: State, k: Key, r: nat)
    requires SlotsOk(s) && RoomsOk(s) && IsIn(s, k, r)
    ensures Current(s, k) && s.where[k.slot].InRoom? && s.where[k.slot].room == r && s.sessions[k.slot].mode == ROOM(r)
  {
    SlotFacts(s, k.slot);
  }

  lemma LeftSlots(s: State, k: Key, r: nat)
    requires SlotsOk(s) && RoomsOk(s) && IsIn(s, k, r)
    ensures SlotsOk(Left(s, k, r))
  {
    PlayerFacts(s, k, r);
    ClearedState(s, k, r);
    hide SlotsOk, RoomsOk;
    RemovalSlots(s, Left(s, k, r), k, r, Leaving(r, s.where[k.slot].told), [Enter(k, r)]);
  }

  /** A task of a room's queue that carries nobody is done without any effect. */
  lemma DroppedSlots(s: State, t: Task)
    requires SlotsOk(s) && t in s.work && (t.Remove? || t.Delete?)
    ensures SlotsOk(s.(work := s.work - multiset{t}))
  {
    var s' := s.(work := s.work - multiset{t});
    var k := if t.Remove? then t.key else Key(|s.sessions|, 0);
    assert s'.work + multiset{t} == s.work + multiset{};
    RoomsUnchanged(s, s');
    TasksMoved(s, s', k, [], multiset{t}, multiset{}, multiset{});
    if Current(s, k) {
      SlotFacts(s, k.slot);
      hide SlotsOk, Tasks, IsIn, Moves, Carried, Due, TasksFit;
      BalancedStay(k, s.where[k.slot], multiset{t}, multiset{});
      Transit(s, s', k.slot, s.where[k.slot], multiset{t}, multiset{});
    } else {
      hide SlotsOk, Tasks, IsIn, Moves, Carried, Due;
      StaleKeepsSlots(s, s', k, multiset{t}, multiset{});
    }
  }

  lemma RemoveRunSlots(s: State, k: Key, r: nat)
    requires SlotsOk(s) && RoomsOk(s) && Remove(k, r) in s.work && RoomExists(s, r)
    ensures SlotsOk(RemoveRun(s, k, r))
  {
    var s1 := s.(work := s.work - multiset{Remove(k, r)});
    DroppedSlots(s, Remove(k, r));
    if IsIn(s, k, r) {
      PlayerFacts(s, k, r);
      ClearedState(s1, k, r);
      hide SlotsOk, RoomsOk;
      var w := s.where[k.slot];
      var leaves := s.sessions[k.slot].life == ACTIVE;
      RemovalSlots(s1, RemoveRun(s, k, r), k, r, if leaves then Leaving(r, w.told) else Lost(w.told), if leaves then [Enter(k, r)] else []);
    }
  }

  /** A room nobody is in appears in no key's account. */
  lemma EmptyRoomSlots(s: State, s': State, r: nat, gone: multiset<Task>, come: multiset<Task>)
    requires SlotsOk(s) && RoomExists(s, r) && s.rooms[r].value.players == {}
    requires |s'.rooms| == |s.rooms| && s'.rooms == s.rooms[r := s'.rooms[r]] && (s'.rooms[r].Some? ==> s'.rooms[r].value.players == {})
    requires s' == s.(rooms := s'.rooms, work := s'.work) && s'.work + gone == s.work + come
    requires forall t :: t in gone || t in come ==> t.Delete?
    ensures SlotsOk(s')
  {
    var nobody := Key(|s.sessions|, 0);
    forall l: Key, q: nat
      ensures IsIn(s', l, q) <==> IsIn(s, l, q)
    {
    }
    TasksMoved(s, s', nobody, [], gone, come, come);
    hide SlotsOk, IsIn, Moves, Tasks;
    StaleKeepsSlots(s, s', nobody, gone, come);
  }

  lemma DeleteRunSlots(s: State, r: nat)
    requires SlotsOk(s) && RoomsOk(s) && Delete(r) in s.work
    ensures SlotsOk(DeleteRun(s, r))
  {
    assert s.work[Delete(r)] > 0;
    hide SlotsOk;
    var s' := DeleteRun(s, r);
    assert s'.work + multiset{Delete(r)} == s.work + multiset{};
    EmptyRoomSlots(s, s', r, multiset{Delete(r)}, multiset{});
  }

  // ---------- Lobby tasks ----------

  lemma BalancedReturn(k: Key, r: nat, told: bool)
    ensures Balanced(k, InAdd, InLobby, multiset{Add(k)}, multiset{})
    ensures Balanced(k, InAdd, Lost(true), multiset{Add(k)}, multiset{})
    ensures Balanced(k, InFailure, InLobby, multiset{Result(k, false)}, multiset{})
    ensures Balanced(k, Leaving(r, true), InLobby, multiset{Enter(k, r)}, multiset{})
    ensures Balanced(k, Leaving(r, told), Lost(told), multiset{Enter(k, r)}, multiset{})
  {
  }

  lemma BalancedTold(k: Key, w: Where)
    requires Untold(w)
    ensures Balanced(k, w, Told(w), multiset{Result(k, true)}, multiset{})
  {
  }

  function Popped(s: State, j: nat): State
    requires j < |s.lobby|
  {
    s.(lobby := s.lobby[..j] + s.lobby[j + 1..])
  }

  lemma PoppedMoves(s: State, s': State, j: nat, k: Key)
    requires j < |s.lobby| && About(s.lobby[j], k) && s'.lobby == Popped(s, j).lobby && s'.work == s.work && s'.rooms == s.rooms
    ensures Moves(s, s', k, multiset{s.lobby[j]}, multiset{})
    ensures s.lobby[j] in Tasks(s)
    ensures forall l: Key, r: nat :: IsIn(s', l, r) <==> IsIn(s, l, r)
  {
    RoomsUnchanged(s, s');
    hide IsIn, About;
    assert s.lobby[..j] + s.lobby[j + 1..] + [] == s.lobby[..j] + s.lobby[j + 1..];
    LobbyMoved(s, s', k, j, [], multiset{}, multiset{});
    assert s.lobby[j] in multiset(s.lobby);
  }

  /** A lobby task about a key that is not current does nothing. */
  lemma StaleLobbySlots(s: State, j: nat, k: Key)
    requires SlotsOk(s) && j < |s.lobby| && About(s.lobby[j], k) && !Current(s, k)
    ensures SlotsOk(Popped(s, j))
  {
    PoppedMoves(s, Popped(s, j), j, k);
    hide SlotsOk, IsIn, Moves, Tasks, About;
    StaleKeepsSlots(s, Popped(s, j), k, multiset{s.lobby[j]}, multiset{});
  }

  /** The entry of a slot never has an id that is not its session's. */
  lemma StaleEntry(s: State, k: Key)
    requires SlotsOk(s) && !Current(s, k) && k.slot < |s.sessions|
    ensures Cleared(s.entries[k.slot], k.id) == (s.entries[k.slot], false)
    ensures s.entries[k.slot := s.entries[k.slot]] == s.entries
  {
    SlotFacts(s, k.slot);
  }

  /** A lobby task takes a current session to another place. */
  lemma LobbyTransit(s: State, s': State, j: nat, k: Key, w': Where)
    requires SlotsOk(s) && j < |s.lobby| && About(s.lobby[j], k) && Current(s, k)
    requires s'.lobby == Popped(s, j).lobby && s'.work == s.work && s'.rooms == s.rooms && s'.nextId == s.nextId
    requires var i := k.slot;
             && |s'.sessions| == |s.sessions| && |s'.entries| == |s.entries|
             && s'.sessions == s.sessions[i := s.sessions[i].(mode := s'.sessions[i].mode)]
             && s'.entries == s.entries[i := EntryFor(w', k.id)] && s'.where == s.where[i := w']
             && ModeFits(w', s'.sessions[i])
    requires Balanced(k, s.where[k.slot], w', multiset{s.lobby[j]}, multiset{})
    requires RoomOf(w') == RoomOf(s.where[k.slot])
    ensures SlotsOk(s')
  {
    SlotFacts(s, k.slot);
    PoppedMoves(s, s', j, k);
    hide SlotsOk, IsIn, Moves, Tasks, Carried, Balanced, About;
    Transit(s, s', k.slot, w', multiset{s.lobby[j]}, multiset{});
  }

  function RoomOf(w: Where): Option<nat> {
    if w.InRoom? then Some(w.room) else None
  }

  /** The place that calls for a task. */
  predicate Suits(t: Task, w: Where) {
    match t
    case Add(_) => w == InAdd
    case Result(_, success) => if success then Untold(w) else w == InFailure
    case Enter(_, r) => w.Leaving? && w.room == r
    case _ => true
  }

  lemma DueSuits(k: Key, t: Task, w: Where)
    requires t in Due(k, w)
    ensures Suits(t, w)
  {
  }

  /** A popped task that carries a current session tells where it is. */
  lemma PoppedTells(s: State, j: nat, k: Key)
    requires SlotsOk(s) && j < |s.lobby| && Current(s, k) && Carries(s.lobby[j], k)
    ensures var (x, w) := (s.sessions[k.slot], s.where[k.slot]);
            Suits(s.lobby[j], w) && s.entries[k.slot] == EntryFor(w, k.id) && ModeFits(w, x) && k.id > 0
  {
    SlotFacts(s, k.slot);
    assert s.lobby[j] in multiset(s.lobby);
    TaskTells(s, s.lobby[j], k);
    hide Due, SlotsOk;
    DueSuits(k, s.lobby[j], s.where[k.slot]);
  }

  lemma AddRunSlots(s: State, j: nat, k: Key)
    requires SlotsOk(s) && j < |s.lobby| && s.lobby[j] == Add(k)
    ensures SlotsOk(AddRun(Popped(s, j), k))
  {
    if Current(s, k) {
      PoppedTells(s, j, k);
      hide SlotsOk, Balanced, Due;
      var s' := AddRun(Popped(s, j), k);
      BalancedReturn(k, 0, true);
      LobbyTransit(s, s', j, k, s'.where[k.slot]);
    } else {
      StaleLobbySlots(s, j, k);
    }
  }

  lemma StaleResult(s: State, j: nat, k: Key, success: bool)
    requires SlotsOk(s) && j < |s.lobby| && s.lobby[j] == Result(k, success) && !Current(s, k)
    ensures SlotsOk(ResultRun(Popped(s, j), k, success))
  {
    if k.slot < |s.sessions| {
      StaleEntry(s, k);
    }
    hide SlotsOk;
    StaleLobbySlots(s, j, k);
  }

  lemma SuccessSlots(s: State, j: nat, k: Key)
    requires SlotsOk(s) && j < |s.lobby| && s.lobby[j] == Result(k, true) && Current(s, k)
    ensures SlotsOk(ResultRun(Popped(s, j), k, true))
  {
    PoppedTells(s, j, k);
    hide SlotsOk, Balanced, Due;
    BalancedTold(k, s.where[k.slot]);
    LobbyTransit(s, ResultRun(Popped(s, j), k, true), j, k, Told(s.where[k.slot]));
  }

  lemma FailureSlots(s: State, j: nat, k: Key)
    requires SlotsOk(s) && j < |s.lobby| && s.lobby[j] == Result(k, false) && Current(s, k)
    ensures SlotsOk(ResultRun(Popped(s, j), k, false))
  {
    PoppedTells(s, j, k);
    hide SlotsOk, Balanced, Due;
    BalancedReturn(k, 0, true);
    LobbyTransit(s, ResultRun(Popped(s, j), k, false), j, k, InLobby);
  }

  lemma EnterRunSlots(s: State, j: nat, k: Key, r: nat)
    requires SlotsOk(s) && j < |s.lobby| && s.lobby[j] == Enter(k, r)
    ensures SlotsOk(EnterRun(Popped(s, j), k, r))
  {
    assert Shaped(s);
    hide SlotsOk, EnterRun;
    if !Current(s, k) {
      StaleEnter(s, j, k, r);
    } else if s.sessions[k.slot].life == ACTIVE && s.sessions[k.slot].mode == ROOM(r) && s.entries[k.slot] == Empty {
      EnterSlots(s, j, k, r);
    } else {
      NoEnterSlots(s, j, k, r);
    }
  }

  lemma StaleEnter(s: State, j: nat, k: Key, r: nat)
    requires SlotsOk(s) && j < |s.lobby| && s.lobby[j] == Enter(k, r) && !Current(s, k)
    ensures SlotsOk(EnterRun(Popped(s, j), k, r))
  {
    hide SlotsOk;
    StaleLobbySlots(s, j, k);
  }

  lemma EnterSlots(s: State, j: nat, k: Key, r: nat)
    requires SlotsOk(s) && j < |s.lobby| && s.lobby[j] == Enter(k, r) && Current(s, k)
    requires s.sessions[k.slot].life == ACTIVE && s.sessions[k.slot].mode == ROOM(r) && s.entries[k.slot] == Empty
    ensures SlotsOk(EnterRun(Popped(s, j), k, r))
  {
    PoppedTells(s, j, k);
    hide SlotsOk, Balanced, Due;
    BalancedReturn(k, r, true);
    LobbyTransit(s, EnterRun(Popped(s, j), k, r), j, k, InLobby);
  }

  lemma NoEnterState(s: State, j: nat, k: Key, r: nat)
    requires Shaped(s) && j < |s.lobby| && Current(s, k)
    requires s.sessions[k.slot].life != ACTIVE || s.sessions[k.slot].mode != ROOM(r) || s.entries[k.slot] != Empty
    ensures EnterRun(Popped(s, j), k, r) == Popped(s, j).(where := s.where[k.slot := Lost(ToldOf(s.where[k.slot]))])
  {
  }

  lemma NoEnterSlots(s: State, j: nat, k: Key, r: nat)
    requires SlotsOk(s) && j < |s.lobby| && s.lobby[j] == Enter(k, r) && Current(s, k)
    requires s.sessions[k.slot].life != ACTIVE || s.sessions[k.slot].mode != ROOM(r) || s.entries[k.slot] != Empty
    ensures SlotsOk(EnterRun(Popped(s, j), k, r))
  {
    NoEnterState(s, j, k, r);
    hide SlotsOk, EnterRun;
    LostSlots(s, EnterRun(Popped(s, j), k, r), j, k, r);
  }

  lemma LostSlots(s: State, s': State, j: nat, k: Key, r: nat)
    requires SlotsOk(s) && j < |s.lobby| && s.lobby[j] == Enter(k, r) && Current(s, k)
    requires s' == Popped(s, j).(where := s.where[k.slot := Lost(ToldOf(s.where[k.slot]))])
    ensures SlotsOk(s')
  {
    PoppedTells(s, j, k);
    var told := s.where[k.slot].told;
    BalancedReturn(k, r, told);
    assert s.entries[k.slot := s.entries[k.slot]] == s.entries && s.sessions[k.slot := s.sessions[k.slot]] == s.sessions;
    hide SlotsOk, Balanced, Due;
    LobbyTransit(s, s', j, k, Lost(told));
  }

  // ---------- Disconnecting ----------

  lemma DisconnectStays(s: State, s': State, j: nat, k: Key, sent: seq<Task>, added: multiset<Task>)
    requires SlotsOk(s) && j < |s.lobby| && s.lobby[j] == Disconnect(k) && Current(s, k)
    requires s'.lobby == Popped(s, j).lobby + sent && s'.work == s.work + added && s'.rooms == s.rooms && s'.nextId == s.nextId
    requires s'.entries == s.entries && s'.where == s.where && |s'.sessions| == |s.sessions|
    requires s'.sessions == s.sessions[k.slot := s.sessions[k.slot].(mode := s'.sessions[k.slot].mode)]
    requires ModeFits(s.where[k.slot], s'.sessions[k.slot])
    requires sent == [] || sent == [Disconnect(k)]
    requires forall t :: t in added ==> t.Remove? && t.key == k
    ensures SlotsOk(s')
  {
    SlotFacts(s, k.slot);
    RoomsUnchanged(s, s');
    var come := multiset(sent) + added;
    LobbyMoved(s, s', k, j, sent, added, come);
    BalancedStay(k, s.where[k.slot], multiset{Disconnect(k)}, come);
    hide SlotsOk, IsIn, Moves, Tasks, Carried, Balanced;
    Transit(s, s', k.slot, s.where[k.slot], multiset{Disconnect(k)}, come);
  }

  /** The slot that becomes free carries nothing, and no other slot changes. */
  lemma FinalizedSlots(s: State, j: nat, k: Key)
    requires SlotsOk(s) && j < |s.lobby| && s.lobby[j] == Disconnect(k) && Current(s, k)
    ensures SlotsOk(Finalized(Popped(s, j), k))
  {
    var s' := Finalized(Popped(s, j), k);
    SlotFacts(s, k.slot);
    PoppedMoves(s, s', j, k);
    hide SlotsOk, IsIn, Moves, Tasks, Carried;
    StepKeepsSlots(s, s', k, multiset{Disconnect(k)}, multiset{});
  }

  lemma DisconnectRunSlots(s: State, j: nat, k: Key)
    requires SlotsOk(s) && RoomsOk(s) && j < |s.lobby| && s.lobby[j] == Disconnect(k)
    ensures SlotsOk(DisconnectRun(Popped(s, j), k))
  {
    if !Current(s, k) {
      hide SlotsOk, RoomsOk;
      StaleLobbySlots(s, j, k);
      return;
    }
    SlotFacts(s, k.slot);
    hide SlotsOk, RoomsOk, Carried, Finalized, TasksFit;
    var (s', x) := (DisconnectRun(Popped(s, j), k), s.sessions[k.slot]);
    if x.life != DISCONNECTING {
      DisconnectStays(s, s', j, k, [], multiset{});
    } else if x.mode.ROOM? {
      DisconnectInRoom(s, j, k);
    } else {
      FinalizedSlots(s, j, k);
    }
  }

  lemma DisconnectInRoom(s: State, j: nat, k: Key)
    requires SlotsOk(s) && j < |s.lobby| && s.lobby[j] == Disconnect(k) && Current(s, k)
    requires s.sessions[k.slot].life == DISCONNECTING && s.sessions[k.slot].mode.ROOM?
    ensures SlotsOk(DisconnectRun(Popped(s, j), k))
  {
    SlotFacts(s, k.slot);
    hide SlotsOk, Carried, TasksFit;
    var (s', r) := (DisconnectRun(Popped(s, j), k), s.sessions[k.slot].mode.room);
    assert s.sessions[k.slot := s.sessions[k.slot]] == s.sessions;
    if RoomExists(s, r) && s.rooms[r].value.state == OPEN {
      DisconnectStays(s, s', j, k, [], multiset{Remove(k, r)});
    } else if RoomExists(s, r) {
      DisconnectStays(s, s', j, k, [Disconnect(k)], multiset{});
    } else {
      NotInMissingRoom(s, k, r);
      DisconnectStays(s, s', j, k, [Disconnect(k)], multiset{});
    }
  }

  lemma NotInMissingRoom(s: State, k: Key, r: nat)
    requires SlotsOk(s) && Current(s, k) && !RoomExists(s, r)
    ensures !(s.where[k.slot].InRoom? && s.where[k.slot].room == r)
  {
    SlotFacts(s, k.slot);
    assert !IsIn(s, k, r);
  }

  lemma PostDeleteSlots(s: State, r: nat)
    requires SlotsOk(s) && RoomsOk(s) && CanStep(s, PostDelete(r))
    ensures SlotsOk(Next(s, PostDelete(r)))
  {
    hide SlotsOk;
    EmptyRoomSlots(s, Next(s, PostDelete(r)), r, multiset{}, multiset{Delete(r)});
  }

  lemma StepSlots(s: State, step: Step)
    requires Inv(s) && CanStep(s, step)
    ensures SlotsOk(Next(s, step))
  {
    match step {
      case Accept(i) => AcceptSlots(s, i);
      case Login(i, p) => LoginSlots(s, i, p);
      case BeginJoin(i, r) => JoinBegunSlots(s, i, r);
      case BeginCreate(i) => CreateBegunSlots(s, i);
      case RunLobby(j) => LobbyRunSlots(s, j);
      case Requeue(j) => RequeueSlots(s, j);
      case RunJoin(k, r, admit) => JoinRunSlots(s, k, r, admit);
      case RunRemove(k, r) => RemoveRunSlots(s, k, r);
      case RunCreate(k, r, succeed) => CreateRunSlots(s, k, r, succeed);
      case RunDelete(r) => DeleteRunSlots(s, r);
      case Leave(k, r) => LeftSlots(s, k, r);
      case BeginDisconnect(i) => DisconnectBegunSlots(s, i);
      case RegisterIO(k) => RegisteredSlots(s, k);
      case CompleteIO(k) => CompletedSlots(s, k);
      case AddSessionTask(k) => AddSessionTaskSlots(s, k);
      case RunSessionTask(i) => RunSessionTaskSlots(s, i);
      case PostDelete(r) => PostDeleteSlots(s, r);
    }
  }

  lemma LobbyRunSlots(s: State, j: nat)
    requires SlotsOk(s) && RoomsOk(s) && TasksOk(s) && j < |s.lobby|
    ensures SlotsOk(LobbyRun(s, j))
  {
    assert s.lobby[j] in multiset(s.lobby);
    hide SlotsOk, RoomsOk, AddRun, ResultRun, EnterRun, DisconnectRun;
    match s.lobby[j]
    case Add(k) => AddRunSlots(s, j, k);
    case Result(k, success) => ResultRunSlots(s, j, k, success);
    case Enter(k, r) => EnterRunSlots(s, j, k, r);
    case Disconnect(k) => DisconnectRunSlots(s, j, k);
    case _ =>
  }

  lemma ResultRunSlots(s: State, j: nat, k: Key, success: bool)
    requires SlotsOk(s) && j < |s.lobby| && s.lobby[j] == Result(k, success)
    ensures SlotsOk(ResultRun(Popped(s, j), k, success))
  {
    hide SlotsOk, ResultRun;
    if !Current(s, k) {
      StaleResult(s, j, k, success);
    } else if success {
      SuccessSlots(s, j, k);
    } else {
      FailureSlots(s, j, k);
    }
  }

  lemma RequeueSlots(s: State, j: nat)
    requires SlotsOk(s) && CanStep(s, Requeue(j))
    ensures SlotsOk(Requeued(s, j))
  {
    var s' := Requeued(s, j);
    assert s.lobby == s.lobby[..j] + [s.lobby[j]] + s.lobby[j + 1..];
    assert Tasks(s') == Tasks(s);
    hide SlotOk, IsIn, Tasks;
    forall i | 0 <= i < |s'.sessions|
      ensures SlotOk(s', i)
    {
      SameTasks(s, s', i);
    }
  }

  /** A slot does not depend on the order of the queues. */
  lemma SameTasks(s: State, s': State, i: nat)
    requires Shaped(s) && i < |s.sessions| && SlotOk(s, i) && Tasks(s') == Tasks(s) && s' == s.(lobby := s'.lobby)
    ensures SlotOk(s', i)
  {
    RoomsUnchanged(s, s');
    hide Tasks, IsIn;
  }

  lemma DisconnectBegunSlots(s: State, i: nat)
    requires SlotsOk(s) && i < |s.sessions| && s.sessions[i].life == ACTIVE
    ensures SlotsOk(DisconnectBegun(s, i))
  {
    SlotFacts(s, i);
    hide SlotsOk, Carried, IsIn;
    SessionSlots(s, DisconnectBegun(s, i), i, if s.sessions[i].pending == 0 then [Disconnect(KeyAt(s, i))] else []);
  }

  lemma RegisteredSlots(s: State, k: Key)
    requires SlotsOk(s)
    ensures SlotsOk(Registered(s, k))
  {
    if Registered(s, k) != s {
      SlotFacts(s, k.slot);
      hide SlotsOk, Carried, IsIn;
      assert s.lobby + [] == s.lobby;
      SessionSlots(s, Registered(s, k), k.slot, []);
    }
  }

  lemma CompletedSlots(s: State, k: Key)
    requires SlotsOk(s)
    ensures SlotsOk(Completed(s, k))
  {
    var s' := Completed(s, k);
    if s' != s {
      SlotFacts(s, k.slot);
      hide SlotsOk, Carried, IsIn;
      assert s.lobby + [] == s.lobby;
      SessionSlots(s, s', k.slot, if s'.lobby == s.lobby then [] else [Disconnect(k)]);
    }
  }

  lemma AddSessionTaskSlots(s: State, k: Key)
    requires SlotsOk(s) && CanStep(s, AddSessionTask(k))
    ensures SlotsOk(Next(s, AddSessionTask(k)))
  {
    var s' := Next(s, AddSessionTask(k));
    if s' != s {
      SlotFacts(s, k.slot);
      hide SlotsOk, Carried, IsIn;
      assert s.lobby + [] == s.lobby;
      SessionSlots(s, s', k.slot, []);
    }
  }

  lemma RunSessionTaskSlots(s: State, i: nat)
    requires SlotsOk(s) && CanStep(s, RunSessionTask(i))
    ensures SlotsOk(Next(s, RunSessionTask(i)))
  {
    SlotFacts(s, i);
    hide SlotsOk, Carried, IsIn;
    assert s.lobby + [] == s.lobby;
    SessionSlots(s, Next(s, RunSessionTask(i)), i, []);
  }

  // ---------- Accounts, rooms and queues ----------

  /** Sessions stay who they are: same ids, same accounts, none gone. */
  predicate SamePeople(s: State, s': State) {
    && |s'.sessions| == |s.sessions| && s'.logins == s.logins
    && forall j :: 0 <= j < |s.sessions| ==>
         && (s.sessions[j].life != NONE ==> s'.sessions[j].life != NONE && s'.sessions[j].id == s.sessions[j].id)
         && (s.sessions[j].life == NONE ==> s'.sessions[j].life == NONE || s'.sessions[j].id >= s.nextId)
         && s'.sessions[j].player == s.sessions[j].player
  }

  /** The new tasks of a queue are of its kind and about current sessions or keys already seen. */
  ghost predicate QueuesGrow(s: State, s': State) {
    && s.nextId <= s'.nextId
    && (forall t :: t in s'.lobby ==> t in s.lobby || (IsLobbyTask(t) && t.key.id < s'.nextId))
    && (forall t :: t in s'.work ==> t in s.work || (!IsLobbyTask(t) && (t.Delete? || t.key.id < s'.nextId)))
  }

  /** Rooms gain current sessions only, and no room appears, empties, or goes without notice. */
  ghost predicate RoomsMove(s: State, s': State) {
    && |s'.rooms| == |s.rooms|
    && (forall k: Key, r: nat :: IsIn(s', k, r) ==> IsIn(s, k, r) || Current(s', k))
    && (forall r: nat :: RoomExists(s', r) && s'.rooms[r].value.players != {} ==> s'.rooms[r].value.state == OPEN)
    && (forall r: nat :: RoomExists(s, r) ==> RoomExists(s', r) && (s'.rooms[r].value.state == POSTED <==> s.rooms[r].value.state == POSTED))
    && (forall r: nat :: RoomExists(s', r) && !RoomExists(s, r) ==> s'.rooms[r].value.state == OPEN)
    && (forall r: nat :: s'.work[Delete(r)] == s.work[Delete(r)])
    && (forall t :: t in s'.work && (t.Join? || t.Remove?) ==> t in s.work || (RoomExists(s, t.room) && s.rooms[t.room].value.state == OPEN))
  }

  lemma RestKeeps(s: State, s': State)
    requires RoomsOk(s) && LoginsOk(s) && TasksOk(s) && s.nextId > 0
    requires SamePeople(s, s') && QueuesGrow(s, s') && RoomsMove(s, s')
    ensures RoomsOk(s') && LoginsOk(s') && TasksOk(s') && s'.nextId > 0
  {
    PeopleKeepLogins(s, s');
    QueuesKeepTasks(s, s');
    hide LoginsOk, TasksOk, QueuesGrow;
    forall k: Key, r: nat | IsIn(s', k, r)
      ensures Current(s', k)
    {
      assert IsIn(s, k, r) ==> Current(s, k);
    }
  }

  lemma PeopleKeepLogins(s: State, s': State)
    requires LoginsOk(s) && SamePeople(s, s')
    ensures LoginsOk(s')
  {
    forall i | 0 <= i < |s'.sessions| && s'.sessions[i].player.Some?
      ensures s'.sessions[i].player.value in s'.logins && s'.logins[s'.sessions[i].player.value] == KeyAt(s', i)
    {
      var p := s.sessions[i].player.value;
      assert Current(s, s.logins[p]);
    }
  }

  lemma QueuesKeepTasks(s: State, s': State)
    requires TasksOk(s) && QueuesGrow(s, s')
    ensures TasksOk(s')
  {
    forall t | t in multiset(s'.lobby)
      ensures IsLobbyTask(t) && t.key.id < s'.nextId
    {
      assert t in s.lobby ==> t in multiset(s.lobby) && t in Tasks(s);
    }
    forall t | t in s'.work
      ensures !IsLobbyTask(t) && (!t.Delete? ==> t.key.id < s'.nextId)
    {
      assert t in s.work ==> t in Tasks(s);
    }
  }

  /** The ids that are in use have been given out. */
  lemma IdsAreOld(s: State)
    requires SlotsOk(s) && s.nextId > 0 && TasksOk(s)
    ensures forall i :: 0 <= i < |s.sessions| ==> s.sessions[i].id < s.nextId
    ensures forall t :: t in s.work && !t.Delete? ==> t.key.id < s.nextId
    ensures forall t :: t in s.lobby && !t.Delete? ==> t.key.id < s.nextId
  {
    forall i | 0 <= i < |s.sessions|
      ensures s.sessions[i].id < s.nextId
    {
      SlotFacts(s, i);
    }
    forall t | t in s.work && !t.Delete?
      ensures t.key.id < s.nextId
    {
      assert t in Tasks(s);
    }
    forall t | t in s.lobby && !t.Delete?
      ensures t.key.id < s.nextId
    {
      assert t in multiset(s.lobby) && t in Tasks(s);
    }
  }

  /** What the lemmas below need to know about ids. */
  ghost predicate IdsOld(s: State) {
    && (forall i :: 0 <= i < |s.sessions| ==> s.sessions[i].id < s.nextId)
    && (forall t :: t in s.work && !t.Delete? ==> t.key.id < s.nextId)
  }

  ghost predicate RestMoves(s: State, s': State) {
    SamePeople(s, s') && QueuesGrow(s, s') && RoomsMove(s, s')
  }

  lemma SameRoomsMove(s: State, s': State)
    requires s'.rooms == s.rooms && RoomsOk(s)
    requires forall r: nat :: s'.work[Delete(r)] == s.work[Delete(r)]
    requires forall t :: t in s'.work && (t.Join? || t.Remove?) ==> t in s.work || (RoomExists(s, t.room) && s.rooms[t.room].value.state == OPEN)
    ensures RoomsMove(s, s')
  {
    RoomsUnchanged(s, s');
  }

  lemma AcceptRest(s: State, i: nat)
    requires SlotsOk(s) && RoomsOk(s) && IdsOld(s) && i < |s.sessions| && s.sessions[i].life == NONE
    ensures RestMoves(s, Accepted(s, i))
  {
    SlotFacts(s, i);
    hide SlotsOk, RoomsMove;
    SameRoomsMove(s, Accepted(s, i));
  }

  lemma JoinBegunRest(s: State, i: nat, r: nat)
    requires Shaped(s) && RoomsOk(s) && IdsOld(s) && i < |s.sessions| && RoomExists(s, r)
    ensures RestMoves(s, JoinBegun(s, i, r))
  {
    hide RoomsMove, RoomsOk;
    SameRoomsMove(s, JoinBegun(s, i, r));
  }

  lemma CreateBegunRest(s: State, i: nat)
    requires Shaped(s) && RoomsOk(s) && IdsOld(s) && i < |s.sessions|
    ensures RestMoves(s, CreateBegun(s, i))
  {
    hide RoomsMove, RoomsOk;
    SameRoomsMove(s, CreateBegun(s, i));
  }

  lemma FailedRest(s: State, t: Task, k: Key, r: nat)
    requires Shaped(s) && RoomsOk(s) && IdsOld(s) && t in s.work && IsTransition(t, k, r)
    ensures RestMoves(s, Failed(s.(work := s.work - multiset{t}), k))
  {
    hide RoomsMove, RoomsOk;
    SameRoomsMove(s, Failed(s.(work := s.work - multiset{t}), k));
  }

  lemma EnteredRest(s: State, t: Task, k: Key, r: nat, room: Room)
    requires Shaped(s) && RoomsOk(s) && IdsOld(s) && t in s.work && IsTransition(t, k, r) && MayEnter(s, k) && r < |s.rooms|
    requires room.players == (if s.rooms[r].Some? then s.rooms[r].value.players else {}) + {k} && room.state == OPEN
    requires s.rooms[r].Some? ==> s.rooms[r].value.state == OPEN
    ensures RestMoves(s, Entered(s.(work := s.work - multiset{t}), k, r, room))
  {
    var s' := Entered(s.(work := s.work - multiset{t}), k, r, room);
    forall l: Key, q: nat
      ensures IsIn(s', l, q) ==> IsIn(s, l, q) || Current(s', l)
    {
    }
    EnteredRooms(s, s', r, room);
  }

  lemma EnteredRooms(s: State, s': State, r: nat, room: Room)
    requires RoomsOk(s) && r < |s.rooms| && s'.rooms == s.rooms[r := Some(room)] && room.state == OPEN
    requires s.rooms[r].Some? ==> s.rooms[r].value.state == OPEN
    ensures forall q: nat :: RoomExists(s', q) && s'.rooms[q].value.players != {} ==> s'.rooms[q].value.state == OPEN
    ensures forall q: nat :: RoomExists(s, q) ==> RoomExists(s', q) && (s'.rooms[q].value.state == POSTED <==> s.rooms[q].value.state == POSTED)
  {
    hide IsIn;
    forall q: nat | RoomExists(s', q)
      ensures s'.rooms[q].value.players != {} ==> s'.rooms[q].value.state == OPEN
    {
      assert q != r ==> RoomExists(s, q);
    }
  }

  lemma ClearedRest(s: State, s': State, k: Key, r: nat, w': Where, last: seq<Task>)
    requires SlotsOk(s) && RoomsOk(s) && IdsOld(s) && IsIn(s, k, r) && Current(s, k) && GivesUp(s, s', k, r, w', last)
    requires s'.logins == s.logins && (last == [] || last == [Enter(k, r)])
    ensures RestMoves(s, s')
  {
    SlotFacts(s, k.slot);
    hide SlotsOk, SlotOk;
    LeftRooms(s, s', k, r);
  }

  lemma LeftRooms(s: State, s': State, k: Key, r: nat)
    requires RoomsOk(s) && IsIn(s, k, r) && s'.rooms == s.rooms[r := Some(RoomWithout(s.rooms[r].value, k))] && s'.work == s.work
    ensures RoomsMove(s, s')
  {
    assert s.rooms[r].value.state == OPEN;
    forall l: Key, q: nat
      ensures IsIn(s', l, q) ==> IsIn(s, l, q)
    {
    }
    forall q: nat | RoomExists(s', q)
      ensures s'.rooms[q].value.players != {} ==> s'.rooms[q].value.state == OPEN
    {
      assert RoomExists(s, q);
    }
  }

  /** A change of one session's own fields, with at most its disconnect task sent. */
  lemma FieldsRest(s: State, s': State, i: nat, sent: seq<Task>)
    requires Shaped(s) && RoomsOk(s) && IdsOld(s) && i < |s.sessions| == |s'.sessions| && s.sessions[i].life != NONE
    requires s'.sessions == s.sessions[i := s'.sessions[i]] && s'.sessions[i].life != NONE && s'.sessions[i].id == s.sessions[i].id
    requires s'.sessions[i].player == s.sessions[i].player && s'.logins == s.logins
    requires s'.rooms == s.rooms && s'.work == s.work && s'.nextId == s.nextId && s'.lobby == s.lobby + sent
    requires sent == [] || sent == [Disconnect(KeyAt(s, i))]
    ensures RestMoves(s, s')
  {
    hide RoomsMove, RoomsOk;
    SameRoomsMove(s, s');
  }

  /** A lobby task that leaves the accounts alone. */
  lemma LobbyRest(s: State, s': State, j: nat, k: Key)
    requires Shaped(s) && RoomsOk(s) && IdsOld(s) && j < |s.lobby| && s.lobby[j].Delete? == false && s.lobby[j].key == k && k.id < s.nextId
    requires s'.rooms == s.rooms && s'.nextId == s.nextId && SamePeople(s, s')
    requires s'.lobby == Popped(s, j).lobby || s'.lobby == Popped(s, j).lobby + [Disconnect(k)]
    requires s'.work == s.work ||
             (exists r: nat :: RoomExists(s, r) && s.rooms[r].value.state == OPEN && s'.work == s.work + multiset{Remove(k, r)})
    ensures RestMoves(s, s')
  {
    hide RoomsMove, RoomsOk, SamePeople;
    SameRoomsMove(s, s');
  }

  lemma RemoveDropped(s: State, k: Key, r: nat)
    requires Shaped(s) && RoomsOk(s) && IdsOld(s) && Remove(k, r) in s.work
    ensures RestMoves(s, s.(work := s.work - multiset{Remove(k, r)}))
  {
    hide RoomsMove, RoomsOk;
    SameRoomsMove(s, s.(work := s.work - multiset{Remove(k, r)}));
  }

  // ---------- Steps that change more ----------

  lemma LoginRest(s: State, i: nat, p: nat)
    requires Inv(s) && LobbyConsumes(s, i)
    ensures var s' := LoggedIn(s, i, p); RoomsOk(s') && LoginsOk(s') && TasksOk(s')
  {
    var s' := LoggedIn(s, i, p);
    SlotFacts(s, i);
    if s' != s {
      LoginLogins(s, i, p);
      hide SlotsOk, LoginsOk;
      RoomsUnchanged(s, s');
      assert Tasks(s') == Tasks(s);
    }
  }

  /** A session that has not logged in has no account, and logging in gives it one that nobody
      else has. */
  lemma LoginLogins(s: State, i: nat, p: nat)
    requires LoginsOk(s) && Shaped(s) && i < |s.sessions| && s.sessions[i].life == ACTIVE && p !in s.logins
    requires LoggedIn(s, i, p) != s && s.sessions[i].player.None?
    ensures LoginsOk(LoggedIn(s, i, p))
  {
  }

  lemma DeleteRunRest(s: State, r: nat)
    requires RoomsOk(s) && Delete(r) in s.work
    ensures RoomsOk(DeleteRun(s, r))
  {
    var s' := DeleteRun(s, r);
    assert s.work[Delete(r)] > 0;
    assert RoomExists(s, r) && s.rooms[r].value.state == POSTED && s.rooms[r].value.players == {};
    forall l: Key, q: nat
      ensures IsIn(s', l, q) ==> IsIn(s, l, q)
    {
    }
    forall q: nat
      ensures RoomExists(s', q) ==> RoomExists(s, q) && s'.rooms[q] == s.rooms[q]
      ensures s'.work[Delete(q)] == Bit(RoomExists(s', q) && s'.rooms[q].value.state == POSTED)
    {
      assert s.work[Delete(q)] == Bit(RoomExists(s, q) && s.rooms[q].value.state == POSTED);
    }
  }

  lemma PostDeleteRest(s: State, r: nat)
    requires RoomsOk(s) && CanStep(s, PostDelete(r))
    ensures RoomsOk(Next(s, PostDelete(r)))
  {
    var s' := Next(s, PostDelete(r));
    assert s.rooms[r].value.players == {};
    forall l: Key, q: nat
      ensures IsIn(s', l, q) ==> IsIn(s, l, q)
    {
    }
    forall q: nat
      ensures RoomExists(s', q) <==> RoomExists(s, q)
      ensures q != r && RoomExists(s, q) ==> s'.rooms[q] == s.rooms[q]
      ensures s'.work[Delete(q)] == Bit(RoomExists(s', q) && s'.rooms[q].value.state == POSTED)
    {
      assert s.work[Delete(q)] == Bit(RoomExists(s, q) && s.rooms[q].value.state == POSTED);
    }
  }

  /** A session that leaves for good is in no room, and its account goes with it. */
  lemma FinalizedRest(s: State, j: nat, k: Key)
    requires SlotsOk(s) && RoomsOk(s) && LoginsOk(s) && j < |s.lobby| && Current(s, k) && !s.sessions[k.slot].mode.ROOM?
    ensures var s' := Finalized(Popped(s, j), k); RoomsOk(s') && LoginsOk(s')
  {
    var s' := Finalized(Popped(s, j), k);
    SlotFacts(s, k.slot);
    hide SlotsOk;
    FinalizedLogins(s, j, k);
    hide LoginsOk;
    RoomsUnchanged(s, s');
    forall l: Key, r: nat | IsIn(s', l, r)
      ensures Current(s', l)
    {
      assert IsIn(s, l, r) && Current(s, l) && !IsIn(s, k, r);
    }
  }

  lemma FinalizedLogins(s: State, j: nat, k: Key)
    requires Shaped(s) && LoginsOk(s) && j < |s.lobby| && Current(s, k)
    ensures LoginsOk(Finalized(Popped(s, j), k))
  {
    var s' := Finalized(Popped(s, j), k);
    var x := s.sessions[k.slot];
    forall p | p in s'.logins
      ensures Current(s', s'.logins[p]) && s'.sessions[s'.logins[p].slot].player == Some(p)
    {
      assert Current(s, s.logins[p]);
    }
    forall i | 0 <= i < |s'.sessions| && s'.sessions[i].player.Some?
      ensures s'.sessions[i].player.value in s'.logins && s'.logins[s'.sessions[i].player.value] == KeyAt(s', i)
    {
    }
  }

  lemma QueueShrinks(s: State, s': State)
    requires TasksOk(s) && s'.nextId == s.nextId
    requires forall t :: t in s'.lobby ==> t in s.lobby
    requires forall t :: t in s'.work ==> t in s.work || t.Delete?
    ensures TasksOk(s')
  {
    hide TasksOk;
    QueuesKeepTasks(s, s');
  }

  // ---------- Every step keeps the invariant ----------

  /** Accounts, rooms and queues, without the slots. */
  ghost predicate RestOk(s: State) {
    RoomsOk(s) && LoginsOk(s) && TasksOk(s) && s.nextId > 0
  }

  lemma RestStays(s: State, s': State)
    requires RestOk(s) && RestMoves(s, s')
    ensures RestOk(s')
  {
    RestKeeps(s, s');
  }

  lemma JoinRunRest(s: State, k: Key, r: nat, admit: bool)
    requires Shaped(s) && RoomsOk(s) && IdsOld(s) && Join(k, r) in s.work && RoomExists(s, r)
    ensures RestMoves(s, JoinRun(s, k, r, admit))
  {
    hide RestMoves, RoomsOk, IdsOld;
    var room := s.rooms[r].value;
    if MayEnter(s, k) && admit && room.state == OPEN {
      EnteredRest(s, Join(k, r), k, r, room.(players := room.players + {k}));
    } else {
      FailedRest(s, Join(k, r), k, r);
    }
  }

  lemma CreateRunRest(s: State, k: Key, r: nat, succeed: bool)
    requires Shaped(s) && RoomsOk(s) && IdsOld(s) && Create(k) in s.work
    ensures RestMoves(s, CreateRun(s, k, r, succeed))
  {
    hide RestMoves, RoomsOk, IdsOld;
    if MayEnter(s, k) && succeed && r < |s.rooms| && s.rooms[r].None? {
      EnteredRest(s, Create(k), k, r, Room(OPEN, {k}));
    } else {
      FailedRest(s, Create(k), k, r);
    }
  }

  lemma LeftRest(s: State, k: Key, r: nat)
    requires SlotsOk(s) && RoomsOk(s) && IdsOld(s) && IsIn(s, k, r)
    ensures RestMoves(s, Left(s, k, r))
  {
    PlayerFacts(s, k, r);
    ClearedState(s, k, r);
    hide SlotsOk, RoomsOk, RestMoves, IdsOld;
    ClearedRest(s, Left(s, k, r), k, r, Leaving(r, s.where[k.slot].told), [Enter(k, r)]);
  }

  lemma RemoveRunRest(s: State, k: Key, r: nat)
    requires SlotsOk(s) && RestOk(s) && IdsOld(s) && Remove(k, r) in s.work && RoomExists(s, r)
    ensures RestOk(RemoveRun(s, k, r))
  {
    var s1 := s.(work := s.work - multiset{Remove(k, r)});
    RemoveDropped(s, k, r);
    RestStays(s, s1);
    DroppedSlots(s, Remove(k, r));
    if IsIn(s, k, r) {
      PlayerFacts(s, k, r);
      ClearedState(s1, k, r);
      assert IdsOld(s1);
      hide SlotsOk, RestMoves, IdsOld, RestOk;
      RestIsRooms(s1);
      var w := s.where[k.slot];
      var leaves := s.sessions[k.slot].life == ACTIVE;
      ClearedRest(s1, RemoveRun(s, k, r), k, r, if leaves then Leaving(r, w.told) else Lost(w.told), if leaves then [Enter(k, r)] else []);
      RestStays(s1, RemoveRun(s, k, r));
    }
  }

  lemma RestIsRooms(s: State)
    requires RestOk(s)
    ensures RoomsOk(s)
  {
  }

  lemma LobbyPeople(s: State, j: nat, t: Task)
    requires SlotsOk(s) && j < |s.lobby| && s.lobby[j] == t && (t.Add? || t.Result? || t.Enter?)
    ensures var s' := LobbyRun(s, j);
            SamePeople(s, s') && s'.rooms == s.rooms && s'.nextId == s.nextId && s'.work == s.work && s'.lobby == Popped(s, j).lobby
  {
    hide SlotsOk;
  }

  lemma LobbyTaskRest(s: State, j: nat, t: Task)
    requires SlotsOk(s) && RestOk(s) && IdsOld(s) && j < |s.lobby| && s.lobby[j] == t && (t.Add? || t.Result? || t.Enter?)
    ensures RestOk(LobbyRun(s, j))
  {
    LobbyPeople(s, j, t);
    assert t in multiset(s.lobby) && t in Tasks(s);
    hide SlotsOk, RestMoves, LobbyRun, SamePeople;
    LobbyRest(s, LobbyRun(s, j), j, t.key);
    RestStays(s, LobbyRun(s, j));
  }

  lemma DisconnectRest(s: State, j: nat, k: Key)
    requires SlotsOk(s) && RestOk(s) && IdsOld(s) && j < |s.lobby| && s.lobby[j] == Disconnect(k)
    ensures RestOk(DisconnectRun(Popped(s, j), k))
  {
    assert Disconnect(k) in multiset(s.lobby) && Disconnect(k) in Tasks(s);
    var s' := DisconnectRun(Popped(s, j), k);
    if Current(s, k) && s.sessions[k.slot].life == DISCONNECTING && !s.sessions[k.slot].mode.ROOM? {
      FinalizedRest(s, j, k);
      hide SlotsOk, RoomsOk, LoginsOk;
      QueueShrinks(s, s');
    } else {
      DisconnectState(s, j, k);
      hide SlotsOk, RestMoves, RoomsOk, LoginsOk, TasksOk, DisconnectRun, SamePeople;
      LobbyRest(s, s', j, k);
      RestStays(s, s');
    }
  }

  lemma StepRest(s: State, step: Step)
    requires SlotsOk(s) && RestOk(s) && IdsOld(s) && CanStep(s, step)
    requires !step.Login? && !step.RunLobby? && !step.RunDelete? && !step.PostDelete?
    ensures RestOk(Next(s, step))
  {
    hide RoomsOk, LoginsOk, TasksOk, RestMoves, IdsOld, SlotsOk;
    var s' := Next(s, step);
    match step {
      case Accept(i) => AcceptRest(s, i);
      case BeginJoin(i, r) => JoinBegunRest(s, i, r);
      case BeginCreate(i) => CreateBegunRest(s, i);
      case RunJoin(k, r, admit) => JoinRunRest(s, k, r, admit);
      case RunRemove(k, r) => RemoveRunRest(s, k, r); return;
      case RunCreate(k, r, succeed) => CreateRunRest(s, k, r, succeed);
      case Leave(k, r) => LeftRest(s, k, r);
      case Requeue(j) => RequeueRest(s, j);
      case BeginDisconnect(i) => FieldsRest(s, s', i, if s.sessions[i].pending == 0 then [Disconnect(KeyAt(s, i))] else []);
      case _ => SessionRest(s, step); return;
    }
    RestStays(s, s');
  }

  /** Steps about a session's own tasks and I/O. */
  lemma SessionRest(s: State, step: Step)
    requires SlotsOk(s) && RestOk(s) && IdsOld(s) && CanStep(s, step)
    requires step.RegisterIO? || step.CompleteIO? || step.AddSessionTask? || step.RunSessionTask?
    ensures RestOk(Next(s, step))
  {
    hide RoomsOk, LoginsOk, TasksOk, RestMoves, IdsOld, SlotsOk;
    var s' := Next(s, step);
    if s' == s {
      return;
    }
    assert s.lobby + [] == s.lobby;
    match step {
      case RegisterIO(k) => FieldsRest(s, s', k.slot, []);
      case CompleteIO(k) => FieldsRest(s, s', k.slot, if s'.lobby == s.lobby then [] else [Disconnect(k)]);
      case AddSessionTask(k) => FieldsRest(s, s', k.slot, []);
      case RunSessionTask(i) => FieldsRest(s, s', i, []);
    }
    RestStays(s, s');
  }

  lemma RequeueRest(s: State, j: nat)
    requires Shaped(s) && RoomsOk(s) && IdsOld(s) && CanStep(s, Requeue(j))
    ensures RestMoves(s, Requeued(s, j))
  {
    hide RoomsMove, RoomsOk;
    SameRoomsMove(s, Requeued(s, j));
  }

  lemma StepKeeps(s: State, step: Step)
    requires Inv(s) && CanStep(s, step)
    ensures Inv(Next(s, step))
  {
    StepSlots(s, step);
    IdsAreOld(s);
    hide SlotsOk, RoomsOk, LoginsOk, TasksOk, LobbyRun;
    match step {
      case Login(i, p) => LoginRest(s, i, p);
      case RunLobby(j) => LobbyRunRest(s, j);
      case RunDelete(r) => DeleteKeeps(s, r);
      case PostDelete(r) => PostKeeps(s, r);
      case _ => StepRest(s, step);
    }
  }

  lemma LobbyRunRest(s: State, j: nat)
    requires SlotsOk(s) && RestOk(s) && IdsOld(s) && j < |s.lobby|
    ensures RestOk(LobbyRun(s, j))
  {
    assert s.lobby[j] in multiset(s.lobby);
    if s.lobby[j].Disconnect? {
      DisconnectRest(s, j, s.lobby[j].key);
    } else {
      LobbyTaskRest(s, j, s.lobby[j]);
    }
  }

  lemma DeleteKeeps(s: State, r: nat)
    requires RestOk(s) && Delete(r) in s.work
    ensures RestOk(DeleteRun(s, r))
  {
    DeleteRunRest(s, r);
    hide RoomsOk;
    QueueShrinks(s, DeleteRun(s, r));
    PeopleKeepLogins(s, DeleteRun(s, r));
  }

  lemma PostKeeps(s: State, r: nat)
    requires RestOk(s) && CanStep(s, PostDelete(r))
    ensures RestOk(Next(s, PostDelete(r)))
  {
    PostDeleteRest(s, r);
    hide RoomsOk;
    QueueShrinks(s, Next(s, PostDelete(r)));
    PeopleKeepLogins(s, Next(s, PostDelete(r)));
  }

  // ---------- Runs ----------

  function Run(s: State, steps: seq<Step>): State
    decreases |steps|
  {
    if steps == [] then s else Run(if CanStep(s, steps[0]) then Next(s, steps[0]) else s, steps[1..])
  }

  function Begin(sessions: nat, rooms: nat): State {
    State(seq(sessions, _ => FREE_SESSION), seq(sessions, _ => Empty), seq(rooms, _ => None), map[], [], multiset{}, 1, seq(sessions, _ => Nowhere))
  }

  lemma BeginIsFine(sessions: nat, rooms: nat)
    ensures Inv(Begin(sessions, rooms))
  {
    var s := Begin(sessions, rooms);
    assert forall k: Key, r: nat :: !IsIn(s, k, r);
  }

  lemma {:induction false} RunKeeps(s: State, steps: seq<Step>)
    requires Inv(s)
    ensures Inv(Run(s, steps))
    decreases |steps|
  {
    hide Inv, CanStep, Next;
    if steps != [] {
      if CanStep(s, steps[0]) {
        StepKeeps(s, steps[0]);
        RunKeeps(Next(s, steps[0]), steps[1..]);
      } else {
        RunKeeps(s, steps[1..]);
      }
    }
  }

  // ---------- Never two owners ----------

  /** No session is worked on by the lobby and by a room, nor by two rooms; a player in a room
      is a session in that room's mode. */
  ghost predicate SingleOwner(s: State) {
    && Shaped(s)
    && (forall k: Key, r: nat :: IsIn(s, k, r) ==>
          Current(s, k) && s.sessions[k.slot].mode == ROOM(r) && s.entries[k.slot] != Active(k.id))
    && (forall k: Key, r: nat, q: nat :: IsIn(s, k, r) && IsIn(s, k, q) ==> r == q)
  }

  lemma InvGivesSingleOwner(s: State)
    requires Inv(s)
    ensures SingleOwner(s)
  {
    forall k: Key, r: nat | IsIn(s, k, r)
      ensures Current(s, k) && s.sessions[k.slot].mode == ROOM(r) && s.entries[k.slot] != Active(k.id)
      ensures forall q: nat :: IsIn(s, k, q) ==> r == q
    {
      PlayerFacts(s, k, r);
      SlotFacts(s, k.slot);
    }
  }

  /** In every reachable state, with lobby, room and lifecycle tasks processed in any order. */
  lemma NeverTwoOwners(sessions: nat, rooms: nat, steps: seq<Step>)
    ensures SingleOwner(Run(Begin(sessions, rooms), steps))
  {
    hide Run, Begin, SingleOwner, Inv;
    BeginIsFine(sessions, rooms);
    RunKeeps(Begin(sessions, rooms), steps);
    InvGivesSingleOwner(Run(Begin(sessions, rooms), steps));
  }

  // ---------- Never orphaned ----------

  /** The ways to own a session, or to carry it to its next owner. */
  datatype Owner = ByLobby | ByRoom(room: nat) | ByAdd | ByJoin(room: nat) | ByCreate | ByFailure | ByEnter(room: nat)

  ghost function Weight(s: State, k: Key, o: Owner): nat
    requires Shaped(s) && k.slot < |s.sessions|
  {
    match o
    case ByLobby => Bit(s.entries[k.slot] == Active(k.id))
    case ByRoom(r) => Bit(IsIn(s, k, r))
    case ByAdd => Tasks(s)[Add(k)]
    case ByJoin(r) => Tasks(s)[Join(k, r)]
    case ByCreate => Tasks(s)[Create(k)]
    case ByFailure => Tasks(s)[Result(k, false)]
    case ByEnter(r) => Tasks(s)[Enter(k, r)]
  }

  ghost predicate OwnedBy(s: State, k: Key, o: Owner)
    requires Shaped(s) && k.slot < |s.sessions|
  {
    forall p :: Weight(s, k, p) == Bit(p == o)
  }

  /** Exactly one owner or carrier, and that one once. */
  ghost predicate OwnedOnce(s: State, i: nat)
    requires Shaped(s) && i < |s.sessions|
  {
    exists o :: OwnedBy(s, KeyAt(s, i), o)
  }

  function OwnerAt(w: Where): Owner {
    match w
    case InAdd => ByAdd
    case InJoin(r) => ByJoin(r)
    case InCreate => ByCreate
    case InFailure => ByFailure
    case InRoom(r, _) => ByRoom(r)
    case Leaving(r, _) => ByEnter(r)
    case _ => ByLobby
  }

  lemma WeightAt(s: State, i: nat, p: Owner)
    requires SlotsOk(s) && i < |s.sessions| && s.sessions[i].life != NONE && !s.where[i].Lost?
    ensures Weight(s, KeyAt(s, i), p) == Bit(p == OwnerAt(s.where[i]))
  {
    SlotFacts(s, i);
    var (k, w) := (KeyAt(s, i), s.where[i]);
    hide SlotsOk, Tasks, IsIn;
    match p
    case ByAdd => assert Tasks(s)[Add(k)] == Due(k, w)[Add(k)];
    case ByCreate => assert Tasks(s)[Create(k)] == Due(k, w)[Create(k)];
    case ByFailure => assert Tasks(s)[Result(k, false)] == Due(k, w)[Result(k, false)];
    case ByJoin(r) => assert Tasks(s)[Join(k, r)] == Due(k, w)[Join(k, r)];
    case ByEnter(r) => assert Tasks(s)[Enter(k, r)] == Due(k, w)[Enter(k, r)];
    case _ =>
  }

  lemma PlacedIsOwned(s: State, i: nat)
    requires SlotsOk(s) && i < |s.sessions| && s.sessions[i].life != NONE && !s.where[i].Lost?
    ensures OwnedOnce(s, i)
  {
    assert Shaped(s);
    hide SlotsOk, Weight;
    forall p
      ensures Weight(s, KeyAt(s, i), p) == Bit(p == OwnerAt(s.where[i]))
    {
      WeightAt(s, i, p);
    }
    assert OwnedBy(s, KeyAt(s, i), OwnerAt(s.where[i]));
  }

  /** The lobby takes its tasks in the order they came; one whose session is busy goes to the
      back. */
  predicate Fifo(steps: seq<Step>) {
    forall n :: 0 <= n < |steps| && (steps[n].RunLobby? || steps[n].Requeue?) ==> steps[n].index == 0
  }

  ghost predicate NoneLost(s: State)
    requires Shaped(s)
  {
    forall i :: 0 <= i < |s.sessions| && s.sessions[i].life == ACTIVE ==> !s.where[i].Lost?
  }

  /** A session's arrival in the lobby is never queued in front of the news that it had left. */
  ghost predicate InOrder(s: State) {
    forall a, b :: 0 <= a < b < |s.lobby| && s.lobby[a].Enter? && s.lobby[b] == Result(s.lobby[a].key, true) ==>
      !Current(s, s.lobby[a].key)
  }

  /** New lobby tasks keep the order: a success is new only for a session that has just entered
      a room. */
  lemma OrderGrows(s: State, s': State, front: nat, sent: seq<Task>)
    requires SlotsOk(s') && TasksOk(s) && InOrder(s) && front <= |s.lobby|
    requires s'.lobby == s.lobby[front..] + sent
    requires forall k :: Current(s', k) && k.id < s.nextId ==> Current(s, k)
    requires forall k :: Result(k, true) in sent && Current(s', k) ==> s'.where[k.slot].InRoom?
    ensures InOrder(s')
  {
    hide Due, EntryFor, ModeFits, Carried;
    var n := |s.lobby| - front;
    forall a, b | 0 <= a < b < |s'.lobby| && s'.lobby[a].Enter? && s'.lobby[b] == Result(s'.lobby[a].key, true)
      ensures !Current(s', s'.lobby[a].key)
    {
      var k := s'.lobby[a].key;
      if b < n {
        assert s.lobby[front + a] == s'.lobby[a] && s.lobby[front + b] == s'.lobby[b];
        assert s.lobby[front + a] in multiset(s.lobby) && s.lobby[front + a] in Tasks(s);
      } else if Current(s', k) {
        assert s'.lobby[b] == sent[b - n];
        assert s'.lobby[a] in multiset(s'.lobby);
        TaskTells(s', s'.lobby[a], k);
        DueSuits(k, s'.lobby[a], s'.where[k.slot]);
      }
    }
  }

  /** Whoever is current with an old id was so before. */
  ghost predicate NoNewcomers(s: State, s': State) {
    forall k :: Current(s', k) && k.id < s.nextId ==> Current(s, k)
  }

  lemma PeopleAreNoNewcomers(s: State, s': State)
    requires SamePeople(s, s')
    ensures NoNewcomers(s, s')
  {
  }

  /** What first-in-first-out processing keeps, one step at a time. */
  ghost predicate Tidy(s: State, s': State) {
    Shaped(s) && Shaped(s') && NoneLost(s') && InOrder(s')
  }

  /** Steps that send nothing to the lobby but disconnect tasks, and leave places alone. */
  lemma FieldsTidy(s: State, s': State, front: nat, sent: seq<Task>)
    requires SlotsOk(s') && TasksOk(s) && Shaped(s) && NoneLost(s) && InOrder(s) && front <= |s.lobby| && NoNewcomers(s, s')
    requires s'.lobby == s.lobby[front..] + sent && s'.where == s.where && |s'.sessions| == |s.sessions|
    requires forall i :: 0 <= i < |s.sessions| && s'.sessions[i].life == ACTIVE ==> s.sessions[i].life == ACTIVE
    requires forall t :: t in sent ==> !(t.Result? && t.success)
    ensures Tidy(s, s')
  {
    assert Shaped(s');
    hide SlotsOk, TasksOk, InOrder, NoNewcomers, Current;
    NewcomersFor(s, s');
    OrderGrows(s, s', front, sent);
  }

  lemma NewcomersFor(s: State, s': State)
    requires NoNewcomers(s, s')
    ensures forall k :: Current(s', k) && k.id < s.nextId ==> Current(s, k)
  {
  }

  /** Steps about one session: its place changes, and it is not lost while active. */
  lemma PlaceTidy(s: State, s': State, i: nat, front: nat, sent: seq<Task>)
    requires SlotsOk(s') && TasksOk(s) && Shaped(s) && NoneLost(s) && InOrder(s) && front <= |s.lobby| && NoNewcomers(s, s')
    requires i < |s.sessions| == |s'.sessions| && s'.lobby == s.lobby[front..] + sent
    requires s'.where == s.where[i := s'.where[i]] && s'.sessions == s.sessions[i := s'.sessions[i]]
    requires s'.sessions[i].life == ACTIVE ==> !s'.where[i].Lost?
    requires forall t :: t in sent && t.Result? && t.success ==> t.key == KeyAt(s', i) && s'.where[i].InRoom?
    ensures Tidy(s, s')
  {
    assert Shaped(s');
    hide SlotsOk, TasksOk, InOrder, NoNewcomers;
    NewcomersFor(s, s');
    OrderGrows(s, s', front, sent);
  }

  /** The state before a step of the theorem below. */
  ghost predicate Orderly(s: State) {
    Inv(s) && NoneLost(s) && InOrder(s)
  }

  lemma OrderlyParts(s: State)
    requires Orderly(s)
    ensures Shaped(s) && SlotsOk(s) && RoomsOk(s) && LoginsOk(s) && TasksOk(s) && RestOk(s) && NoneLost(s) && InOrder(s) && IdsOld(s)
    ensures s.lobby[0..] == s.lobby && s.lobby + [] == s.lobby
  {
    IdsAreOld(s);
  }

  lemma AcceptTidy(s: State, i: nat)
    requires Orderly(s) && CanStep(s, Accept(i)) && SlotsOk(Accepted(s, i))
    ensures Tidy(s, Accepted(s, i))
  {
    OrderlyParts(s);
    AcceptRest(s, i);
    var s' := Accepted(s, i);
    hide SlotsOk, TasksOk, InOrder, NoneLost, QueuesGrow, RoomsMove, RoomsOk, LoginsOk, Tidy, NoNewcomers;
    PeopleAreNoNewcomers(s, s');
    PlaceTidy(s, s', i, 0, [Add(Key(i, s.nextId))]);
  }

  lemma JoinBegunTidy(s: State, i: nat, r: nat)
    requires Orderly(s) && LobbyConsumes(s, i) && RoomExists(s, r) && SlotsOk(JoinBegun(s, i, r))
    ensures Tidy(s, JoinBegun(s, i, r))
  {
    OrderlyParts(s);
    JoinBegunRest(s, i, r);
    SlotFacts(s, i);
    var s' := JoinBegun(s, i, r);
    hide SlotsOk, TasksOk, InOrder, NoneLost, QueuesGrow, RoomsMove, RoomsOk, LoginsOk, Tidy, NoNewcomers, SamePeople, Carried, IsIn;
    PeopleAreNoNewcomers(s, s');
    PlaceTidy(s, s', i, 0, if s.rooms[r].value.state == OPEN then [] else [Result(KeyAt(s, i), false)]);
  }

  lemma CreateBegunTidy(s: State, i: nat)
    requires Orderly(s) && LobbyConsumes(s, i) && SlotsOk(CreateBegun(s, i))
    ensures Tidy(s, CreateBegun(s, i))
  {
    OrderlyParts(s);
    CreateBegunRest(s, i);
    SlotFacts(s, i);
    var s' := CreateBegun(s, i);
    hide SlotsOk, TasksOk, InOrder, NoneLost, QueuesGrow, RoomsMove, RoomsOk, LoginsOk, Tidy, NoNewcomers, SamePeople, Carried, IsIn;
    PeopleAreNoNewcomers(s, s');
    PlaceTidy(s, s', i, 0, []);
  }

  lemma FailedTidy(s: State, t: Task, k: Key, r: nat)
    requires Orderly(s) && t in s.work && IsTransition(t, k, r) && SlotsOk(Failed(s.(work := s.work - multiset{t}), k))
    ensures Tidy(s, Failed(s.(work := s.work - multiset{t}), k))
  {
    OrderlyParts(s);
    FailedRest(s, t, k, r);
    var s' := Failed(s.(work := s.work - multiset{t}), k);
    hide SlotsOk, TasksOk, InOrder, NoneLost, QueuesGrow, RoomsMove, RoomsOk, LoginsOk, Tidy, NoNewcomers, SamePeople;
    PeopleAreNoNewcomers(s, s');
    if Current(s, k) {
      PlaceTidy(s, s', k.slot, 0, [Result(k, false)]);
    } else {
      FieldsTidy(s, s', 0, [Result(k, false)]);
    }
  }

  lemma EnteredTidy(s: State, t: Task, k: Key, r: nat, room: Room)
    requires Orderly(s) && t in s.work && IsTransition(t, k, r) && MayEnter(s, k) && r < |s.rooms|
    requires room.players == (if s.rooms[r].Some? then s.rooms[r].value.players else {}) + {k} && room.state == OPEN
    requires s.rooms[r].Some? ==> s.rooms[r].value.state == OPEN
    requires SlotsOk(Entered(s.(work := s.work - multiset{t}), k, r, room))
    ensures Tidy(s, Entered(s.(work := s.work - multiset{t}), k, r, room))
  {
    OrderlyParts(s);
    EnteredRest(s, t, k, r, room);
    var s' := Entered(s.(work := s.work - multiset{t}), k, r, room);
    hide SlotsOk, TasksOk, InOrder, NoneLost, QueuesGrow, RoomsMove, RoomsOk, LoginsOk, Tidy, NoNewcomers, SamePeople;
    PeopleAreNoNewcomers(s, s');
    PlaceTidy(s, s', k.slot, 0, [Result(k, true)]);
  }

  lemma ExitTidy(s: State, s': State, k: Key, r: nat, w': Where, last: seq<Task>)
    requires Orderly(s) && IsIn(s, k, r) && Current(s, k) && GivesUp(s, s', k, r, w', last) && SlotsOk(s')
    requires s'.logins == s.logins && (last == [] || last == [Enter(k, r)]) && (s.sessions[k.slot].life == ACTIVE ==> !w'.Lost?)
    ensures Tidy(s, s')
  {
    OrderlyParts(s);
    ExitKeepsPeople(s, s', k, r, w', last);
    hide SlotsOk, TasksOk, InOrder, NoneLost, RoomsOk, LoginsOk, Tidy, NoNewcomers, IsIn, IdsOld, RestOk;
    assert s.lobby + Farewell(s, k) + last == s.lobby + (Farewell(s, k) + last);
    PlaceTidy(s, s', k.slot, 0, Farewell(s, k) + last);
  }

  lemma ExitKeepsPeople(s: State, s': State, k: Key, r: nat, w': Where, last: seq<Task>)
    requires SlotsOk(s) && RoomsOk(s) && IdsOld(s) && IsIn(s, k, r) && Current(s, k) && GivesUp(s, s', k, r, w', last)
    requires s'.logins == s.logins && (last == [] || last == [Enter(k, r)])
    ensures NoNewcomers(s, s')
  {
    ClearedRest(s, s', k, r, w', last);
    hide SlotsOk, RoomsOk, IdsOld, GivesUp, NoNewcomers;
    PeopleAreNoNewcomers(s, s');
  }

  lemma LeftTidy(s: State, k: Key, r: nat)
    requires Orderly(s) && IsIn(s, k, r) && SlotsOk(Left(s, k, r))
    ensures Tidy(s, Left(s, k, r))
  {
    PlayerFacts(s, k, r);
    ClearedState(s, k, r);
    hide SlotsOk, Orderly, Tidy;
    ExitTidy(s, Left(s, k, r), k, r, Leaving(r, s.where[k.slot].told), [Enter(k, r)]);
  }

  /** A step that leaves sessions, places and the lobby's queue alone. */
  lemma StillTidy(s: State, s': State)
    requires Orderly(s) && s'.sessions == s.sessions && s'.entries == s.entries && s'.where == s.where && s'.lobby == s.lobby
    ensures Tidy(s, s')
  {
    forall a, b | 0 <= a < b < |s'.lobby| && s'.lobby[a].Enter? && s'.lobby[b] == Result(s'.lobby[a].key, true)
      ensures !Current(s', s'.lobby[a].key)
    {
      assert !Current(s, s.lobby[a].key);
    }
  }

  lemma RemoveRunTidy(s: State, k: Key, r: nat)
    requires Orderly(s) && Remove(k, r) in s.work && RoomExists(s, r) && SlotsOk(RemoveRun(s, k, r))
    ensures Tidy(s, RemoveRun(s, k, r))
  {
    OrderlyParts(s);
    var s1 := s.(work := s.work - multiset{Remove(k, r)});
    StillTidy(s, s1);
    if IsIn(s, k, r) {
      RemoveDropped(s, k, r);
      RestStays(s, s1);
      DroppedSlots(s, Remove(k, r));
      hide SlotsOk, RestMoves, IdsOld, NoneLost, InOrder, RoomsOk, LoginsOk, TasksOk;
      RemovedTidy(s1, k, r);
    }
  }

  lemma RemovedTidy(s: State, k: Key, r: nat)
    requires Orderly(s) && IsIn(s, k, r) && SlotsOk(Removed(s, k, r))
    ensures Tidy(s, Removed(s, k, r))
  {
    OrderlyParts(s);
    PlayerFacts(s, k, r);
    ClearedState(s, k, r);
    hide SlotsOk, Tidy, Orderly, NoneLost, InOrder, RoomsOk, LoginsOk, TasksOk, IdsOld;
    if s.sessions[k.slot].life == ACTIVE {
      LeftTidy(s, k, r);
    } else {
      ExitTidy(s, SlotCleared(s, k, r), k, r, Lost(s.where[k.slot].told), []);
    }
  }

  lemma FieldsStepTidy(s: State, step: Step)
    requires Orderly(s) && CanStep(s, step) && SlotsOk(Next(s, step))
    requires step.Login? || step.BeginDisconnect? || step.RegisterIO? || step.CompleteIO? || step.AddSessionTask? || step.RunSessionTask?
    ensures Tidy(s, Next(s, step))
  {
    OrderlyParts(s);
    var s' := Next(s, step);
    FieldsMove(s, step);
    hide SlotsOk, TasksOk, InOrder, NoneLost, RoomsOk, LoginsOk, Tidy, CanStep, Next;
    FieldsTidy(s, s', 0, if s'.lobby == s.lobby then [] else [s'.lobby[|s.lobby|]]);
  }

  lemma FieldsMove(s: State, step: Step)
    requires CanStep(s, step)
    requires step.Login? || step.BeginDisconnect? || step.RegisterIO? || step.CompleteIO? || step.AddSessionTask? || step.RunSessionTask?
    ensures var s' := Next(s, step);
            && NoNewcomers(s, s') && s'.where == s.where && |s'.sessions| == |s.sessions|
            && (forall i :: 0 <= i < |s.sessions| && s'.sessions[i].life == ACTIVE ==> s.sessions[i].life == ACTIVE)
            && (s'.lobby != s.lobby ==>
                  |s'.lobby| == |s.lobby| + 1 && s'.lobby == s.lobby + [s'.lobby[|s.lobby|]] && s'.lobby[|s.lobby|].Disconnect?)
  {
  }

  // ---------- Lobby tasks in order ----------

  lemma FrontPopped(s: State)
    requires |s.lobby| > 0
    ensures Popped(s, 0).lobby == s.lobby[1..] && s.lobby[1..] + [] == s.lobby[1..]
  {
  }

  lemma AddTidy(s: State, k: Key)
    requires Orderly(s) && |s.lobby| > 0 && s.lobby[0] == Add(k) && SlotsOk(LobbyRun(s, 0)) && Current(s, k)
    ensures Tidy(s, LobbyRun(s, 0))
  {
    OrderlyParts(s);
    FrontPopped(s);
    LobbyPeople(s, 0, Add(k));
    var s' := LobbyRun(s, 0);
    PoppedTells(s, 0, k);
    hide SlotsOk, TasksOk, InOrder, NoneLost, RoomsOk, LoginsOk, Tidy, NoNewcomers, SamePeople;
    PeopleAreNoNewcomers(s, s');
    PlaceTidy(s, s', k.slot, 1, []);
  }

  /** A lobby task about a key that is not current is dropped in peace. */
  lemma StaleTidy(s: State, t: Task)
    requires Orderly(s) && |s.lobby| > 0 && s.lobby[0] == t && (t.Add? || t.Result? || t.Enter?) && !Current(s, t.key) && SlotsOk(LobbyRun(s, 0))
    ensures Tidy(s, LobbyRun(s, 0))
  {
    OrderlyParts(s);
    FrontPopped(s);
    LateLobbyTask(s, 0, t.key);
    hide SlotsOk, TasksOk, InOrder, NoneLost, RoomsOk, LoginsOk, Tidy, LobbyRun;
    FieldsTidy(s, Popped(s, 0), 1, []);
  }

  lemma ResultTidy(s: State, k: Key, success: bool)
    requires Orderly(s) && |s.lobby| > 0 && s.lobby[0] == Result(k, success) && SlotsOk(LobbyRun(s, 0)) && Current(s, k)
    ensures Tidy(s, LobbyRun(s, 0))
  {
    OrderlyParts(s);
    FrontPopped(s);
    LobbyPeople(s, 0, Result(k, success));
    var s' := LobbyRun(s, 0);
    PoppedTells(s, 0, k);
    ActiveIsPlaced(s, k.slot);
    hide SlotsOk, TasksOk, InOrder, NoneLost, RoomsOk, LoginsOk, Tidy, NoNewcomers, SamePeople, ModeFits;
    PeopleAreNoNewcomers(s, s');
    PlaceTidy(s, s', k.slot, 1, []);
  }

  lemma ActiveIsPlaced(s: State, i: nat)
    requires Shaped(s) && NoneLost(s) && i < |s.sessions|
    ensures s.sessions[i].life == ACTIVE ==> !s.where[i].Lost?
  {
  }

  lemma NoNewsBehind(s: State, k: Key, r: nat)
    requires InOrder(s) && |s.lobby| > 0 && s.lobby[0] == Enter(k, r) && Current(s, k)
    ensures Result(k, true) !in s.lobby
  {
    forall b | 0 <= b < |s.lobby|
      ensures s.lobby[b] != Result(k, true)
    {
    }
  }

  /** When a session's arrival is first in the queue, the lobby has been told that it had left. */
  lemma ArrivalIsTold(s: State, k: Key, r: nat)
    requires Orderly(s) && |s.lobby| > 0 && s.lobby[0] == Enter(k, r) && Current(s, k)
    ensures s.where[k.slot] == Leaving(r, true)
  {
    OrderlyParts(s);
    PoppedTells(s, 0, k);
    SlotFacts(s, k.slot);
    NoNewsBehind(s, k, r);
    var (w, t) := (s.where[k.slot], Result(k, true));
    assert Tasks(s)[t] == Due(k, w)[t];
    assert t !in multiset(s.lobby);
    assert IsLobbyTask(t);
  }

  /** Where an arrival that the lobby expects takes the session. */
  lemma ArrivalState(s: State, k: Key, r: nat)
    requires Shaped(s) && |s.lobby| > 0 && s.lobby[0] == Enter(k, r) && Current(s, k) && k.id > 0
    requires s.where[k.slot] == Leaving(r, true) && s.entries[k.slot] == Empty && ModeFits(s.where[k.slot], s.sessions[k.slot])
    ensures var (s', i) := (LobbyRun(s, 0), k.slot);
            && |s'.sessions| == |s.sessions| && s'.sessions == s.sessions[i := s'.sessions[i]] && |s'.where| == |s.where|
            && s'.where == s.where[i := s'.where[i]] && (s'.sessions[i].life == ACTIVE ==> s'.where[i] == InLobby)
  {
    assert s.sessions[k.slot := s.sessions[k.slot]] == s.sessions;
  }

  lemma EnterTidy(s: State, k: Key, r: nat)
    requires Orderly(s) && |s.lobby| > 0 && s.lobby[0] == Enter(k, r) && SlotsOk(LobbyRun(s, 0)) && Current(s, k)
    ensures Tidy(s, LobbyRun(s, 0))
  {
    OrderlyParts(s);
    FrontPopped(s);
    LobbyPeople(s, 0, Enter(k, r));
    PoppedTells(s, 0, k);
    ArrivalIsTold(s, k, r);
    ArrivalState(s, k, r);
    hide SlotsOk, TasksOk, InOrder, NoneLost, RoomsOk, LoginsOk, Tidy, NoNewcomers, SamePeople, LobbyRun;
    PeopleAreNoNewcomers(s, LobbyRun(s, 0));
    PlaceTidy(s, LobbyRun(s, 0), k.slot, 1, []);
  }

  /** What a disconnect task does short of freeing the slot. */
  lemma DisconnectState(s: State, j: nat, k: Key)
    requires Shaped(s) && j < |s.lobby| && s.lobby[j] == Disconnect(k)
    requires !(Current(s, k) && s.sessions[k.slot].life == DISCONNECTING && !s.sessions[k.slot].mode.ROOM?)
    ensures var s' := DisconnectRun(Popped(s, j), k);
            && SamePeople(s, s') && s'.where == s.where
            && (forall i :: 0 <= i < |s.sessions| ==> s'.sessions[i].life == s.sessions[i].life)
            && (s'.lobby == Popped(s, j).lobby || s'.lobby == Popped(s, j).lobby + [Disconnect(k)])
            && s'.rooms == s.rooms && s'.nextId == s.nextId
            && (s'.work == s.work ||
                (exists r: nat :: RoomExists(s, r) && s.rooms[r].value.state == OPEN && s'.work == s.work + multiset{Remove(k, r)}))
  {
  }

  lemma FinalizedTidy(s: State, k: Key)
    requires Orderly(s) && |s.lobby| > 0 && s.lobby[0] == Disconnect(k) && Current(s, k) && SlotsOk(Finalized(Popped(s, 0), k))
    ensures Tidy(s, Finalized(Popped(s, 0), k))
  {
    OrderlyParts(s);
    FrontPopped(s);
    var s' := Finalized(Popped(s, 0), k);
    hide SlotsOk, TasksOk, InOrder, NoneLost, RoomsOk, LoginsOk, Tidy;
    PlaceTidy(s, s', k.slot, 1, []);
  }

  lemma DisconnectTidy(s: State, k: Key)
    requires Orderly(s) && |s.lobby| > 0 && s.lobby[0] == Disconnect(k) && SlotsOk(DisconnectRun(Popped(s, 0), k))
    ensures Tidy(s, DisconnectRun(Popped(s, 0), k))
  {
    OrderlyParts(s);
    FrontPopped(s);
    var s' := DisconnectRun(Popped(s, 0), k);
    if Current(s, k) && s.sessions[k.slot].life == DISCONNECTING && !s.sessions[k.slot].mode.ROOM? {
      hide SlotsOk, Tidy, Orderly;
      FinalizedTidy(s, k);
    } else {
      DisconnectState(s, 0, k);
      hide SlotsOk, TasksOk, InOrder, NoneLost, RoomsOk, LoginsOk, Tidy, SamePeople, DisconnectRun, NoNewcomers;
      PeopleAreNoNewcomers(s, s');
      FieldsTidy(s, s', 1, if s'.lobby == Popped(s, 0).lobby then [] else [Disconnect(k)]);
    }
  }

  lemma LobbyDisconnects(s: State)
    requires Shaped(s) && |s.lobby| > 0 && s.lobby[0].Disconnect?
    ensures LobbyRun(s, 0) == DisconnectRun(Popped(s, 0), s.lobby[0].key)
  {
  }

  lemma LobbyTidy(s: State)
    requires Orderly(s) && |s.lobby| > 0 && SlotsOk(LobbyRun(s, 0))
    ensures Tidy(s, LobbyRun(s, 0))
  {
    OrderlyParts(s);
    assert s.lobby[0] in multiset(s.lobby);
    var t := s.lobby[0];
    if t.Disconnect? {
      LobbyDisconnects(s);
    }
    hide SlotsOk, Tidy, Orderly, LobbyRun;
    if t.Disconnect? {
      DisconnectTidy(s, t.key);
    } else if !Current(s, t.key) {
      StaleTidy(s, t);
    } else if t.Add? {
      AddTidy(s, t.key);
    } else if t.Result? {
      ResultTidy(s, t.key, t.success);
    } else {
      EnterTidy(s, t.key, t.room);
    }
  }

  lemma FifoStep(s: State, step: Step)
    requires Orderly(s) && CanStep(s, step) && (step.RunLobby? || step.Requeue? ==> step.index == 0)
    ensures Orderly(Next(s, step))
  {
    StepKeeps(s, step);
    OrderlyParts(s);
    hide SlotsOk, Orderly, NoneLost, InOrder, RoomsOk, LoginsOk, TasksOk, IdsOld;
    match step {
      case Accept(i) => AcceptTidy(s, i);
      case BeginJoin(i, r) => JoinBegunTidy(s, i, r);
      case BeginCreate(i) => CreateBegunTidy(s, i);
      case RunLobby(_) => LobbyTidy(s);
      case Requeue(_) => RequeueTidy(s);
      case RunJoin(k, r, admit) => JoinRunTidy(s, k, r, admit);
      case RunRemove(k, r) => RemoveRunTidy(s, k, r);
      case RunCreate(k, r, succeed) => CreateRunTidy(s, k, r, succeed);
      case RunDelete(r) => StillTidy(s, DeleteRun(s, r));
      case Leave(k, r) => LeftTidy(s, k, r);
      case PostDelete(r) => StillTidy(s, Next(s, step));
      case _ => FieldsStepTidy(s, step);
    }
    TidyIsOrderly(s, Next(s, step));
  }

  /** A task that goes to the back stays behind the news it has to wait for. */
  lemma RequeueTidy(s: State)
    requires Orderly(s) && CanStep(s, Requeue(0)) && SlotsOk(Requeued(s, 0))
    ensures Tidy(s, Requeued(s, 0))
  {
    OrderlyParts(s);
    FrontPopped(s);
    hide SlotsOk, TasksOk, InOrder, NoneLost, RoomsOk, LoginsOk, Tidy;
    FieldsTidy(s, Requeued(s, 0), 1, [s.lobby[0]]);
  }

  lemma TidyIsOrderly(s: State, s': State)
    requires Tidy(s, s') && Inv(s')
    ensures Orderly(s')
  {
  }

  lemma JoinRunTidy(s: State, k: Key, r: nat, admit: bool)
    requires Orderly(s) && Join(k, r) in s.work && RoomExists(s, r) && SlotsOk(JoinRun(s, k, r, admit))
    ensures Tidy(s, JoinRun(s, k, r, admit))
  {
    OrderlyParts(s);
    hide Orderly, SlotsOk, Tidy;
    var room := s.rooms[r].value;
    if MayEnter(s, k) && admit && room.state == OPEN {
      EnteredTidy(s, Join(k, r), k, r, room.(players := room.players + {k}));
    } else {
      FailedTidy(s, Join(k, r), k, r);
    }
  }

  lemma CreateRunTidy(s: State, k: Key, r: nat, succeed: bool)
    requires Orderly(s) && Create(k) in s.work && SlotsOk(CreateRun(s, k, r, succeed))
    ensures Tidy(s, CreateRun(s, k, r, succeed))
  {
    OrderlyParts(s);
    hide Orderly, SlotsOk, Tidy;
    if MayEnter(s, k) && succeed && r < |s.rooms| && s.rooms[r].None? {
      EnteredTidy(s, Create(k), k, r, Room(OPEN, {k}));
    } else {
      FailedTidy(s, Create(k), k, r);
    }
  }

  lemma {:induction false} FifoRun(s: State, steps: seq<Step>)
    requires Orderly(s) && Fifo(steps)
    ensures Orderly(Run(s, steps))
    decreases |steps|
  {
    hide Orderly, CanStep, Next;
    if steps != [] {
      assert Fifo(steps[1..]) && (steps[0].RunLobby? || steps[0].Requeue? ==> steps[0].index == 0);
      if CanStep(s, steps[0]) {
        FifoStep(s, steps[0]);
        FifoRun(Next(s, steps[0]), steps[1..]);
      } else {
        FifoRun(s, steps[1..]);
      }
    }
  }

  /** When the lobby takes its tasks in order, every active session is, in every reachable
      state, owned by the lobby, owned by one room, or carried by exactly one task that will
      bring it to an owner. */
  lemma NeverOrphaned(sessions: nat, rooms: nat, steps: seq<Step>, i: nat)
    requires Fifo(steps) && i < |Run(Begin(sessions, rooms), steps).sessions|
    requires Run(Begin(sessions, rooms), steps).sessions[i].life == ACTIVE
    ensures var s := Run(Begin(sessions, rooms), steps);
            Shaped(s) && OwnedOnce(s, i)
  {
    BeginIsFine(sessions, rooms);
    assert Orderly(Begin(sessions, rooms));
    hide Run, Begin, OwnedOnce, Orderly;
    FifoRun(Begin(sessions, rooms), steps);
    var s := Run(Begin(sessions, rooms), steps);
    OrderlyParts(s);
    hide SlotsOk;
    PlacedIsOwned(s, i);
  }

  // ---------- Safe reuse of a slot ----------

  /** A key whose session is gone, or was never there, is nowhere to be found. */
  ghost predicate Forgotten(s: State, k: Key) {
    && (k.slot < |s.sessions| && k.slot < |s.entries| && k.id > 0 ==>
          s.entries[k.slot] != Active(k.id) && s.entries[k.slot] != Pending(k.id) && k.id !in s.sessions[k.slot].tasks)
    && (forall r: nat :: !IsIn(s, k, r))
    && (forall p :: p in s.logins ==> s.logins[p] != k)
  }

  predicate OneSessionPerAccount(s: State) {
    && (forall i :: 0 <= i < |s.sessions| && s.sessions[i].player.Some? ==> s.sessions[i].life != NONE)
    && (forall i, j :: 0 <= i < |s.sessions| && 0 <= j < |s.sessions| && s.sessions[i].player == s.sessions[j].player ==>
          i == j || s.sessions[i].player == None)
  }

  lemma InvForgets(s: State, k: Key)
    requires Inv(s) && !Current(s, k)
    ensures Forgotten(s, k)
  {
    if k.slot < |s.sessions| {
      SlotFacts(s, k.slot);
    }
    hide SlotsOk, TasksOk;
  }

  /** In every reachable state no entry, room slot, account or queued session task has the key of
      a session that is gone; and no account is logged in with two sessions. */
  lemma SlotReuseIsSafe(sessions: nat, rooms: nat, steps: seq<Step>)
    ensures var s := Run(Begin(sessions, rooms), steps);
            && (forall k :: !Current(s, k) ==> Forgotten(s, k))
            && OneSessionPerAccount(s)
  {
    hide Run, Begin, Forgotten;
    BeginIsFine(sessions, rooms);
    RunKeeps(Begin(sessions, rooms), steps);
    var s := Run(Begin(sessions, rooms), steps);
    forall k | !Current(s, k)
      ensures Forgotten(s, k)
    {
      InvForgets(s, k);
    }
    hide SlotsOk, RoomsOk, TasksOk;
    OneAccountOneSession(s);
  }

  lemma OneAccountOneSession(s: State)
    requires LoginsOk(s)
    ensures OneSessionPerAccount(s)
  {
    forall i | 0 <= i < |s.sessions| && s.sessions[i].player.Some?
      ensures s.logins[s.sessions[i].player.value] == KeyAt(s, i) && s.sessions[i].life != NONE
    {
      assert Current(s, s.logins[s.sessions[i].player.value]);
    }
  }

  /** The key a step is about, if it is a step of a task or of a completion. */
  function TaskKey(s: State, step: Step): Option<Key>
    requires CanStep(s, step)
  {
    match step
    case RunLobby(j) => if s.lobby[j].Delete? then None else Some(s.lobby[j].key)
    case RunJoin(k, _, _) => Some(k)
    case RunRemove(k, _) => Some(k)
    case RunCreate(k, _, _) => Some(k)
    case RegisterIO(k) => Some(k)
    case CompleteIO(k) => Some(k)
    case AddSessionTask(k) => Some(k)
    case _ => None
  }

  lemma LateLobbyTask(s: State, j: nat, k: Key)
    requires SlotsOk(s) && j < |s.lobby| && !s.lobby[j].Delete? && s.lobby[j].key == k && !Current(s, k)
    ensures LobbyRun(s, j) == Popped(s, j)
  {
    if k.slot < |s.sessions| {
      StaleEntry(s, k);
    }
    hide SlotsOk;
  }

  /** A task or a completion with an old key that arrives late changes no session, no lobby
      entry, no room and no account: whoever has the slot now does not notice. */
  lemma LateTasksAreHarmless(s: State, step: Step, k: Key)
    requires Inv(s) && CanStep(s, step) && TaskKey(s, step) == Some(k) && !Current(s, k)
    ensures var s' := Next(s, step);
            s'.sessions == s.sessions && s'.entries == s.entries && s'.rooms == s.rooms && s'.logins == s.logins && s'.where == s.where
  {
    InvForgets(s, k);
    if step.RunLobby? {
      LateLobbyTask(s, step.index, k);
    }
    hide SlotsOk, RoomsOk, LoginsOk, TasksOk, LobbyRun, Current;
    if step.RunRemove? {
      assert !IsIn(s, k, step.room);
    }
  }
}
