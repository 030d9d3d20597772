/** A room's player slots, its task queue with the one task that had to wait, and its
    deletion. First as functions on values, then as the object that works in place. */
module Rooms {
  import TaskQueue

  /** A session key; no two sessions ever share one. */
  type Key = nat

  datatype Option<T> = None | Some(value: T)

  datatype RoomState = EMPTY | WAIT | PLAY | WAITING_DELETE | DELETE_POST

  datatype Slot = Free | Pending(key: Key) | Active(key: Key)

  datatype RoomTask =
    | Join(key: Key, password: int)
    | RemovePlayer(key: Key)
    | Ready(key: Key)
    | Kick(key: Key, target: Key)
    | Start(key: Key)
    | GiveUp(key: Key)

  /** What the room tells the lobby: the result of a join, or a player who leaves for it. */
  datatype Notice = JoinResult(key: Key, success: bool) | EnterLobby(key: Key)

  /** What the room finds when it looks at the sessions during one attempt: which keys belong
      to a session at all, which sessions another thread is working on, which are in their
      active life, in the lobby, or in this room; and whether every player is ready. */
  datatype Sessions = Sessions(known: set<Key>, busy: set<Key>, active: set<Key>, inLobby: set<Key>, inRoom: set<Key>, allReady: bool)

  /** `single` rooms have one slot and no host. `applied` records the tasks that took effect,
      `accepted` those let into the queue, `notices` what went to the lobby, and `posted` how
      often the room's deletion was requested. */
  datatype Room = Room(single: bool, password: int, state: RoomState, slots: seq<Slot>, count: int, host: Option<Key>,
                       queue: seq<RoomTask>, waiting: Option<RoomTask>,
                       accepted: seq<RoomTask>, applied: seq<RoomTask>, notices: seq<Notice>, posted: nat)

  // ---------- Slots ----------

  predicate Holds(s: Slot, key: Key) {
    !s.Free? && s.key == key
  }

  /** The first slot with this key. */
  function FindSlot(slots: seq<Slot>, key: Key): (r: Option<nat>)
    ensures r.Some? ==> r.value < |slots| && Holds(slots[r.value], key) && forall i :: 0 <= i < r.value ==> !Holds(slots[i], key)
    ensures r.None? ==> forall i :: 0 <= i < |slots| ==> !Holds(slots[i], key)
  {
    if slots == [] then None
    else if Holds(slots[0], key) then Some(0)
    else match FindSlot(slots[1..], key)
      case None => None
      case Some(i) => Some(i + 1)
  }

  function FindFree(slots: seq<Slot>): (r: Option<nat>)
    ensures r.Some? ==> r.value < |slots| && slots[r.value].Free? && forall i :: 0 <= i < r.value ==> !slots[i].Free?
    ensures r.None? ==> forall i :: 0 <= i < |slots| ==> !slots[i].Free?
  {
    if slots == [] then None
    else if slots[0].Free? then Some(0)
    else match FindFree(slots[1..])
      case None => None
      case Some(i) => Some(i + 1)
  }

  function Occupied(slots: seq<Slot>): nat {
    if slots == [] then 0
    else Occupied(slots[..|slots| - 1]) + if slots[|slots| - 1].Free? then 0 else 1
  }

  lemma {:induction false} OccupiedUpdate(slots: seq<Slot>, i: nat, slot: Slot)
    requires i < |slots|
    ensures Occupied(slots[i := slot]) == Occupied(slots) - (if slots[i].Free? then 0 else 1) + (if slot.Free? then 0 else 1)
  {
    var n := |slots| - 1;
    var changed := slots[i := slot];
    if i == n {
      assert changed[..n] == slots[..n];
    } else {
      assert changed[..n] == slots[..n][i := slot];
      OccupiedUpdate(slots[..n], i, slot);
    }
  }

  lemma {:induction false} NoneOccupied(slots: seq<Slot>)
    ensures Occupied(slots) == 0 <==> forall i :: 0 <= i < |slots| ==> slots[i].Free?
  {
    if slots != [] {
      NoneOccupied(slots[..|slots| - 1]);
    }
  }

  // ---------- Leaving and joining ----------

  predicate MayHost(s: Slot, known: set<Key>) {
    s.Active? && s.key in known
  }

  /** The next host: the first active slot whose session can be found. */
  function NewHost(slots: seq<Slot>, known: set<Key>): (r: Option<Key>)
    ensures r.None? ==> forall i :: 0 <= i < |slots| ==> !MayHost(slots[i], known)
    ensures r.Some? ==> exists i :: 0 <= i < |slots| && MayHost(slots[i], known) && slots[i].key == r.value &&
                                    forall j :: 0 <= j < i ==> !MayHost(slots[j], known)
  {
    if slots == [] then None
    else if MayHost(slots[0], known) then
      assert MayHost(slots[0], known);
      Some(slots[0].key)
    else
      var later := NewHost(slots[1..], known);
      assert later.Some? ==> forall i :: 0 <= i < |slots| - 1 ==> slots[1..][i] == slots[i + 1];
      later
  }

  /** A player's slot is given up. The last one to leave starts the deletion of the room. */
  function Removed(r: Room, key: Key, known: set<Key>): Room {
    match FindSlot(r.slots, key)
    case None => r
    case Some(i) =>
      var slots := r.slots[i := Free];
      if r.single then r.(slots := seq(|r.slots|, _ => Free), count := 0, state := WAITING_DELETE)
      else
        r.(slots := slots, count := r.count - 1,
           state := if r.count == 1 then WAITING_DELETE else r.state,
           host := if r.host != Some(key) then r.host else if r.count - 1 == 0 then None else NewHost(slots, known))
  }

  /** An active player leaves for the lobby. */
  function LeftForLobby(r: Room, key: Key, known: set<Key>): Room {
    match FindSlot(r.slots, key)
    case None => r
    case Some(i) =>
      if !r.slots[i].Active? then r
      else
        var r1 := Removed(r.(slots := r.slots[i := Pending(key)]), key, known);
        r1.(notices := r1.notices + [EnterLobby(key)])
  }

  function PlayerRemoved(r: Room, key: Key, s: Sessions): Room {
    if key in s.known && key in s.active then LeftForLobby(r, key, s.known) else Removed(r, key, s.known)
  }

  /** A join that is let in takes the first free slot. Single rooms let nobody in. */
  function Joined(r: Room, key: Key, password: int): (Room, bool) {
    if r.single || r.password != password || r.state != WAIT || FindSlot(r.slots, key).Some? then (r, false)
    else match FindFree(r.slots)
      case None => (r, false)
      case Some(i) => (r.(slots := r.slots[i := Active(key)], count := r.count + 1), true)
  }

  function Noticed(r: Room, n: Notice): Room {
    r.(notices := r.notices + [n])
  }

  // ---------- Tasks ----------

  /** One attempt at a task: the room afterwards, and whether the task is done. */
  function Tried(r: Room, t: RoomTask, s: Sessions): (Room, bool) {
    if t.Join? then
      if t.key !in s.known then (Noticed(r, JoinResult(t.key, false)), true)
      else if t.key in s.busy then (r, false)
      else if t.key in s.active && t.key in s.inLobby then
        var (r1, success) := Joined(r, t.key, t.password);
        (Noticed(r1, JoinResult(t.key, success)), true)
      else (Noticed(r, JoinResult(t.key, false)), true)
    else if t.key !in s.known then
      (if t.RemovePlayer? then PlayerRemoved(r, t.key, s) else r, true)
    else if t.key in s.busy then (r, false)
    else if t.RemovePlayer? then (PlayerRemoved(r, t.key, s), true)
    else if !IsActivePlayer(r, t.key) || t.key !in s.active || t.key !in s.inRoom then (r, true)
    else Specific(r, t, s)
  }

  predicate IsActivePlayer(r: Room, key: Key) {
    var i := FindSlot(r.slots, key);
    i.Some? && r.slots[i.value].Active?
  }

  /** The tasks of players in the room. Ready marks are not part of this model. */
  function Specific(r: Room, t: RoomTask, s: Sessions): (Room, bool) {
    match t
    case Kick(key, target) =>
      if r.single || Some(key) != r.host || Some(target) == r.host || !IsActivePlayer(r, target) || target !in s.known then (r, true)
      else if target in s.busy then (r, false)
      else if target !in s.inRoom then (r, true)
      else (LeftForLobby(r, target, s.known), true)
    case Start(key) =>
      if r.state == WAIT && (r.single || (Some(key) == r.host && s.allReady && r.count > 1)) then (r.(state := PLAY), true)
      else (r, true)
    case GiveUp(_) => if r.single && r.state == PLAY then (r.(state := WAIT), true) else (r, true)
    case _ => (r, true)
  }

  /** A task is let in while the room is open. */
  function Added(r: Room, t: RoomTask): (Room, bool) {
    if r.state == WAIT || r.state == PLAY then (r.(queue := r.queue + [t], accepted := r.accepted + [t]), true) else (r, false)
  }

  predicate HasTask(r: Room) {
    r.waiting.Some? || r.queue != []
  }

  /** The task that is next, the one that had to wait before the ones in the queue. */
  function Attempted(r: Room, s: Sessions): (Room, bool)
    requires HasTask(r)
  {
    var t := if r.waiting.Some? then r.waiting.value else r.queue[0];
    var r1 := if r.waiting.Some? then r.(waiting := None) else r.(queue := r.queue[1..]);
    var (r2, done) := Tried(r1, t, s);
    if done then (r2.(applied := r2.applied + [t]), true) else (r1.(waiting := Some(t)), false)
  }

  function Posted(r: Room): Room {
    if r.state == WAITING_DELETE && r.queue == [] then r.(state := DELETE_POST, posted := r.posted + 1) else r
  }

  /** The claimed tasks one after the other, until one has to wait; then the deletion, if
      everything is done. `views` is what the room sees at each attempt. */
  function Drained(r: Room, views: seq<Sessions>, n: nat): Room
    requires |views| >= n && r.waiting.None? && n <= |r.queue|
    decreases n
  {
    if n == 0 then Posted(r)
    else
      var (r1, done) := Attempted(r, views[0]);
      if done then QueueShrinks(r, views[0]); Drained(r1, views[1..], n - 1) else r1
  }

  lemma QueueShrinks(r: Room, s: Sessions)
    requires HasTask(r)
    ensures var (r1, done) := Attempted(r, s);
            (done ==> r1.waiting.None? && r1.queue == if r.waiting.Some? then r.queue else r.queue[1..])
  {
  }

  /** `ProcessRoomTasks`. */
  function Processed(r: Room, views: seq<Sessions>): Room
    requires |views| >= 1 + |r.queue|
  {
    if r.waiting.Some? then
      var (r1, done) := Attempted(r, views[0]);
      if done then QueueShrinks(r, views[0]); Drained(r1, views[1..], |r1.queue|) else r1
    else Drained(r, views, |r.queue|)
  }

  // ---------- What always holds ----------

  function Waiting(r: Room): seq<RoomTask> {
    if r.waiting.Some? then [r.waiting.value] else []
  }

  /** Accepted tasks are the applied ones, the one that had to wait and the queued ones, in
      this order. The count is the number of occupied slots, and no key is in two of them. A
      room in deletion is empty, and the deletion is requested once, with nothing left to do. */
  ghost predicate Inv(r: Room) {
    && r.accepted == r.applied + Waiting(r) + r.queue
    && r.count == Occupied(r.slots)
    && (r.single ==> |r.slots| == 1)
    && (forall i, j, key :: 0 <= i < j < |r.slots| && Holds(r.slots[i], key) ==> !Holds(r.slots[j], key))
    && (r.state == WAITING_DELETE || r.state == DELETE_POST ==> r.count == 0)
    && r.posted == (if r.state == DELETE_POST then 1 else 0)
    && (r.state == DELETE_POST ==> r.queue == [] && r.waiting.None?)
  }

  /** Slots, count, state and host only; the tasks are left alone. */
  predicate SameTasks(r: Room, r': Room) {
    r'.accepted == r.accepted && r'.applied == r.applied && r'.queue == r.queue && r'.waiting == r.waiting && r'.posted == r.posted
  }

  /** The part of the invariant that is about players. */
  ghost predicate PlayersOk(r: Room) {
    && r.count == Occupied(r.slots)
    && (r.single ==> |r.slots| == 1)
    && (forall i, j, key :: 0 <= i < j < |r.slots| && Holds(r.slots[i], key) ==> !Holds(r.slots[j], key))
    && (r.state == WAITING_DELETE || r.state == DELETE_POST ==> r.count == 0)
  }

  lemma RemovedKeeps(r: Room, key: Key, known: set<Key>)
    requires PlayersOk(r)
    ensures var r' := Removed(r, key, known);
            PlayersOk(r') && SameTasks(r, r') && r'.notices == r.notices && FindSlot(r'.slots, key).None? && (r'.state == DELETE_POST ==> r.state == DELETE_POST)
  {
    hide Occupied;
    var i := FindSlot(r.slots, key);
    NoneOccupied(r.slots);
    if i.Some? {
      OccupiedUpdate(r.slots, i.value, Free);
      NoneOccupied(Removed(r, key, known).slots);
    }
  }

  lemma LeftKeeps(r: Room, key: Key, known: set<Key>)
    requires PlayersOk(r)
    ensures var r' := LeftForLobby(r, key, known);
            PlayersOk(r') && SameTasks(r, r') && (r'.state == DELETE_POST ==> r.state == DELETE_POST)
  {
    hide Occupied, Removed;
    var i := FindSlot(r.slots, key);
    if i.Some? {
      OccupiedUpdate(r.slots, i.value, Pending(key));
      RemovedKeeps(r.(slots := r.slots[i.value := Pending(key)]), key, known);
    }
  }

  lemma JoinedKeeps(r: Room, key: Key, password: int)
    requires PlayersOk(r)
    ensures var (r', success) := Joined(r, key, password);
            && PlayersOk(r') && SameTasks(r, r') && r'.state == r.state && r'.notices == r.notices
            && (success <==> !r.single && r.password == password && r.state == WAIT && FindSlot(r.slots, key).None? && FindFree(r.slots).Some?)
            && (success ==> r'.count == r.count + 1 && IsActivePlayer(r', key))
  {
    hide Occupied;
    var i := FindFree(r.slots);
    if i.Some? {
      OccupiedUpdate(r.slots, i.value, Active(key));
      if Joined(r, key, password).1 {
        assert Holds(Joined(r, key, password).0.slots[i.value], key);
      }
    }
  }

  /** A task changes players, state and notices only, and a task that is not done changes
      nothing at all. */
  lemma TriedKeeps(r: Room, t: RoomTask, s: Sessions)
    requires PlayersOk(r)
    ensures var (r', done) := Tried(r, t, s);
            && PlayersOk(r') && SameTasks(r, r') && (r'.state == DELETE_POST ==> r.state == DELETE_POST)
            && (!done ==> r' == r)
  {
    hide Occupied, Removed, LeftForLobby, Joined, PlayersOk;
    RemovedKeeps(r, t.key, s.known);
    LeftKeeps(r, t.key, s.known);
    if t.Kick? {
      LeftKeeps(r, t.target, s.known);
    }
    if t.Join? {
      JoinedKeeps(r, t.key, t.password);
      NoticeKeeps(r, JoinResult(t.key, false));
      NoticeKeeps(Joined(r, t.key, t.password).0, JoinResult(t.key, Joined(r, t.key, t.password).1));
    }
    StateKeeps(r);
  }

  lemma NoticeKeeps(r: Room, n: Notice)
    ensures PlayersOk(Noticed(r, n)) == PlayersOk(r)
  {
  }

  lemma StateKeeps(r: Room)
    requires PlayersOk(r)
    ensures PlayersOk(r.(state := PLAY)) && PlayersOk(r.(state := WAIT))
  {
  }

  lemma AttemptKeeps(r: Room, s: Sessions)
    requires Inv(r) && HasTask(r)
    ensures var (r', done) := Attempted(r, s);
            && Inv(r') && r'.posted == r.posted && r.state != DELETE_POST
            && (!done ==> r' == (if r.waiting.Some? then r else r.(waiting := Some(r.queue[0]), queue := r.queue[1..])))
            && (done ==> r'.applied == r.applied + [if r.waiting.Some? then r.waiting.value else r.queue[0]])
  {
    hide Occupied, Tried;
    var t := if r.waiting.Some? then r.waiting.value else r.queue[0];
    var r1 := if r.waiting.Some? then r.(waiting := None) else r.(queue := r.queue[1..]);
    assert PlayersOk(r1);
    TriedKeeps(r1, t, s);
    assert Waiting(r) + r.queue == [t] + r1.queue;
    assert r.applied + [t] + [] + r1.queue == r.applied + ([t] + r1.queue);
  }

  lemma PostKeeps(r: Room)
    requires Inv(r) && r.waiting.None?
    ensures Inv(Posted(r))
    ensures Posted(r).posted > r.posted ==> r.count == 0 && !HasTask(r)
    ensures r.state == DELETE_POST ==> Posted(r) == r
  {
  }

  lemma {:induction false} DrainKeeps(r: Room, views: seq<Sessions>, n: nat)
    requires Inv(r) && |views| >= n && r.waiting.None? && n <= |r.queue|
    ensures Inv(Drained(r, views, n))
    decreases n
  {
    hide Inv, Attempted;
    if n == 0 {
      PostKeeps(r);
    } else {
      AttemptKeeps(r, views[0]);
      QueueShrinks(r, views[0]);
      if Attempted(r, views[0]).1 {
        DrainKeeps(Attempted(r, views[0]).0, views[1..], n - 1);
      }
    }
  }

  /** A whole call of `ProcessRoomTasks` keeps everything. */
  lemma ProcessKeeps(r: Room, views: seq<Sessions>)
    requires Inv(r) && |views| >= 1 + |r.queue|
    ensures Inv(Processed(r, views))
  {
    hide Inv, Attempted, Drained;
    if r.waiting.Some? {
      AttemptKeeps(r, views[0]);
      QueueShrinks(r, views[0]);
      if Attempted(r, views[0]).1 {
        DrainKeeps(Attempted(r, views[0]).0, views[1..], |r.queue|);
      }
    } else {
      DrainKeeps(r, views, |r.queue|);
    }
  }

  // ---------- A room's whole life ----------

  /** Everything that happens to a room, in steps of single attempts, so that tasks may be
      added between them: `Leave` is a player's own request, `GameEnds` the end of a tick that
      decided the game, `Post` the end of a drain. */
  datatype Event =
    | Open(host: Key)
    | Add(task: RoomTask)
    | Attempt(view: Sessions)
    | Post
    | Leave(key: Key, view: Sessions)
    | GameEnds

  predicate CanHappen(r: Room, e: Event) {
    match e
    case Open(_) => r.state == EMPTY && r.count == 0
    case Add(_) => true
    case Attempt(_) => HasTask(r)
    case Post => r.waiting.None?
    case Leave(_, _) => true
    case GameEnds => r.state == PLAY
  }

  function After(r: Room, e: Event): Room
    requires CanHappen(r, e)
  {
    match e
    case Open(host) =>
      if r.slots == [] then r
      else r.(slots := r.slots[0 := Active(host)], count := 1, host := if r.single then None else Some(host), state := WAIT)
    case Add(t) => Added(r, t).0
    case Attempt(view) => Attempted(r, view).0
    case Post => Posted(r)
    case Leave(key, view) => LeftForLobby(r, key, view.known)
    case GameEnds => r.(state := WAIT)
  }

  function NewRoom(single: bool, password: int, size: nat): Room {
    Room(single, password, EMPTY, seq(if single then 1 else size, _ => Free), 0, None, [], None, [], [], [], 0)
  }

  lemma EventKeeps(r: Room, e: Event)
    requires Inv(r) && CanHappen(r, e)
    ensures Inv(After(r, e))
    ensures r.state == DELETE_POST ==> After(r, e).state == DELETE_POST
    ensures After(r, e).posted > r.posted ==> r.count == 0 && !HasTask(r)
  {
    hide Occupied, Attempted, LeftForLobby, Posted;
    match e {
      case Open(host) =>
        NoneOccupied(r.slots);
        if r.slots != [] {
          OccupiedUpdate(r.slots, 0, Active(host));
        }
      case Add(t) =>
        assert r.accepted + [t] == r.applied + Waiting(r) + (r.queue + [t]);
      case Attempt(view) => AttemptKeeps(r, view);
      case Post => PostKeeps(r);
      case Leave(key, view) =>
        LeftKeeps(r, key, view.known);
        NobodyLeavesEmptyRoom(r, key, view.known);
      case GameEnds =>
    }
  }

  lemma NobodyLeavesEmptyRoom(r: Room, key: Key, known: set<Key>)
    requires Inv(r)
    ensures r.count == 0 ==> LeftForLobby(r, key, known) == r
  {
    NoneOccupied(r.slots);
  }

  function Life(r: Room, events: seq<Event>): Room
    decreases |events|
  {
    if events == [] then r
    else Life(if CanHappen(r, events[0]) then After(r, events[0]) else r, events[1..])
  }

  lemma {:induction false} LifeKeeps(r: Room, events: seq<Event>)
    requires Inv(r)
    ensures Inv(Life(r, events))
    ensures r.state == DELETE_POST ==> Life(r, events).state == DELETE_POST
    decreases |events|
  {
    hide Inv, After, CanHappen;
    if events != [] {
      if CanHappen(r, events[0]) {
        EventKeeps(r, events[0]);
        LifeKeeps(After(r, events[0]), events[1..]);
      } else {
        LifeKeeps(r, events[1..]);
      }
    }
  }

  /** Over a room's whole life, whatever the sessions do: tasks take effect once each and in the
      order they were accepted, however often one has to wait; the player count is the number
      of occupied slots; the deletion is requested at most once; and from then on the room is
      empty and has nothing queued or waiting, for good. */
  lemma RoomLife(single: bool, password: int, size: nat, events: seq<Event>, more: seq<Event>)
    ensures var r := Life(NewRoom(single, password, size), events);
            && r.applied <= r.accepted && r.accepted == r.applied + Waiting(r) + r.queue
            && r.count == Occupied(r.slots)
            && r.posted <= 1
            && (r.posted == 1 ==>
                  var later := Life(r, more);
                  later.posted == 1 && later.count == 0 && !HasTask(later) && later.applied == later.accepted)
  {
    hide Life, Occupied;
    NewRoomIsFine(single, password, size);
    LifeKeeps(NewRoom(single, password, size), events);
    var r := Life(NewRoom(single, password, size), events);
    LifeKeeps(r, more);
    assert r.accepted == r.applied + (Waiting(r) + r.queue);
    if Life(r, more).state == DELETE_POST {
      var later := Life(r, more);
      assert later.applied + [] + [] == later.applied;
    }
  }

  lemma NewRoomIsFine(single: bool, password: int, size: nat)
    ensures Inv(NewRoom(single, password, size))
  {
    NoneOccupied(NewRoom(single, password, size).slots);
  }

  // ---------- The room as an object ----------

  class TetrisRoom {
    const single: bool
    const password: int
    const slots: array<Slot>
    const roomTasks: TaskQueue.ConcurrentTaskQueue<RoomTask>
    var state: RoomState
    var count: int
    var host: Option<Key>
    var waiting: Option<RoomTask>
    var notices: seq<Notice>
    var posted: nat
    ghost var accepted: seq<RoomTask>
    ghost var applied: seq<RoomTask>

    ghost predicate Valid()
    {
      single ==> slots.Length == 1
    }

    /** Outside a drain the counter of the task queue is exact. */
    ghost predicate Counted()
      reads roomTasks
    {
      roomTasks.taskCount == |roomTasks.tasks|
    }

    ghost function View(): Room
      reads this, slots, roomTasks
    {
      Room(single, password, state, slots[..], count, host, roomTasks.tasks, waiting, accepted, applied, notices, posted)
    }

    constructor (single: bool, password: int, size: nat)
      ensures Valid() && Counted() && View() == NewRoom(single, password, size)
      ensures fresh(slots) && fresh(roomTasks)
    {
      this.single := single;
      this.password := password;
      slots := new Slot[if single then 1 else size](_ => Free);
      roomTasks := new TaskQueue.ConcurrentTaskQueue<RoomTask>();
      state, count, host, waiting := EMPTY, 0, None, None;
      notices, posted, accepted, applied := [], 0, [], [];
    }

    method AddRoomTask(t: RoomTask) returns (ok: bool)
      requires Valid() && Counted()
      modifies roomTasks, this`accepted
      ensures Counted() && (View(), ok) == Added(old(View()), t)
    {
      if state != WAIT && state != PLAY {
        return false;
      }
      roomTasks.Enqueue(t);
      accepted := accepted + [t];
      return true;
    }

    method FindPlayer(key: Key) returns (r: Option<nat>)
      ensures r == FindSlot(slots[..], key)
    {
      for i := 0 to slots.Length
        invariant FindSlot(slots[..], key) ==
                    match FindSlot(slots[i..], key) case None => None case Some(k) => Some(i + k)
      {
        assert slots[i..][0] == slots[i] && slots[i..][1..] == slots[i + 1..];
        if Holds(slots[i], key) {
          return Some(i);
        }
      }
      return None;
    }

    method FindNewHost(known: set<Key>) returns (r: Option<Key>)
      ensures r == NewHost(slots[..], known)
    {
      for i := 0 to slots.Length
        invariant NewHost(slots[..], known) == NewHost(slots[i..], known)
      {
        assert slots[i..][0] == slots[i] && slots[i..][1..] == slots[i + 1..];
        if slots[i].Active? && slots[i].key in known {
          return Some(slots[i].key);
        }
      }
      return None;
    }

    method BeginRoomDelete()
      modifies this`state
      ensures state == WAITING_DELETE
    {
      state := WAITING_DELETE;
    }

    method ClearRoom()
      requires Valid() && single
      modifies this`state, this`count, slots
      ensures View() == old(View()).(slots := seq(slots.Length, _ => Free), count := 0, state := EMPTY)
    {
      for i := 0 to slots.Length
        invariant forall k :: 0 <= k < i ==> slots[k] == Free
      {
        slots[i] := Free;
      }
      assert slots[..] == seq(slots.Length, _ => Free);
      count := 0;
      state := EMPTY;
    }

    method CompletePlayerRemoval(key: Key, known: set<Key>)
      requires Valid()
      modifies this`state, this`count, this`host, slots
      ensures View() == Removed(old(View()), key, known)
    {
      var slot := FindPlayer(key);
      if slot.None? {
        return;
      }
      if single {
        ClearRoom();
        BeginRoomDelete();
        return;
      }
      if count == 1 {
        BeginRoomDelete();
      }
      slots[slot.value] := Free;
      count := count - 1;
      if host == Some(key) {
        host := None;
        if count != 0 {
          host := FindNewHost(known);
        } else {
          BeginRoomDelete();
        }
      }
    }

    method RequestLobbyTransition(key: Key, known: set<Key>) returns (ok: bool)
      requires Valid()
      modifies this`state, this`count, this`host, this`notices, slots
      ensures View() == LeftForLobby(old(View()), key, known)
      ensures ok == IsActivePlayer(old(View()), key)
    {
      var slot := FindPlayer(key);
      if slot.None? || !slots[slot.value].Active? {
        return false;
      }
      slots[slot.value] := Pending(key);
      assert slots[..] == old(slots[..])[slot.value := Pending(key)];
      CompletePlayerRemoval(key, known);
      notices := notices + [EnterLobby(key)];
      return true;
    }

    method RemovePlayer(key: Key, s: Sessions)
      requires Valid()
      modifies this`state, this`count, this`host, this`notices, slots
      ensures View() == PlayerRemoved(old(View()), key, s)
    {
      if key in s.known && key in s.active {
        var _ := RequestLobbyTransition(key, s.known);
        return;
      }
      CompletePlayerRemoval(key, s.known);
    }

    method AddPlayer(key: Key, password: int) returns (ok: bool)
      requires Valid()
      modifies this`count, slots
      ensures (View(), ok) == Joined(old(View()), key, password)
    {
      if single || this.password != password || state != WAIT {
        return false;
      }
      var slot := FindPlayer(key);
      if slot.Some? {
        return false;
      }
      for i := 0 to slots.Length
        invariant slots[..] == old(slots[..]) && count == old(count)
        invariant FindFree(slots[..]) == match FindFree(slots[i..]) case None => None case Some(k) => Some(i + k)
      {
        assert slots[i..][0] == slots[i] && slots[i..][1..] == slots[i + 1..];
        if slots[i].Free? {
          slots[i] := Active(key);
          count := count + 1;
          return true;
        }
      }
      return false;
    }

    method KickPlayer(requester: Key, target: Key, s: Sessions) returns (done: bool)
      requires Valid()
      modifies this`state, this`count, this`host, this`notices, slots
      ensures (View(), done) == Specific(old(View()), Kick(requester, target), s)
    {
      if single || host != Some(requester) || host == Some(target) {
        return true;
      }
      var slot := FindPlayer(target);
      if slot.None? || !slots[slot.value].Active? || target !in s.known {
        return true;
      }
      if target in s.busy {
        return false;
      }
      if target in s.inRoom {
        var _ := RequestLobbyTransition(target, s.known);
      }
      return true;
    }

    method ProcessSpecificRoomTask(t: RoomTask, s: Sessions) returns (done: bool)
      requires Valid()
      modifies this`state, this`count, this`host, this`notices, slots
      ensures (View(), done) == Specific(old(View()), t, s)
    {
      done := true;
      match t {
        case Kick(key, target) => done := KickPlayer(key, target, s);
        case Start(key) =>
          if state == WAIT && (single || (host == Some(key) && s.allReady && count > 1)) {
            state := PLAY;
          }
        case GiveUp(_) =>
          if single && state == PLAY {
            state := WAIT;
          }
        case _ =>
      }
    }

    method TryProcessJoinTask(t: RoomTask, s: Sessions) returns (done: bool)
      requires Valid() && t.Join?
      modifies this`count, this`notices, slots
      ensures (View(), done) == Tried(old(View()), t, s)
    {
      var success := false;
      if t.key in s.known {
        if t.key in s.busy {
          return false;
        }
        if t.key in s.active && t.key in s.inLobby {
          success := AddPlayer(t.key, t.password);
        }
      }
      notices := notices + [JoinResult(t.key, success)];
      return true;
    }

    method TryProcessRoomTask(t: RoomTask, s: Sessions) returns (done: bool)
      requires Valid()
      modifies this`state, this`count, this`host, this`notices, slots
      ensures (View(), done) == Tried(old(View()), t, s)
    {
      hide Specific, PlayerRemoved;
      if t.Join? {
        done := TryProcessJoinTask(t, s);
        return;
      }
      if t.key !in s.known {
        if t.RemovePlayer? {
          RemovePlayer(t.key, s);
        }
        return true;
      }
      if t.key in s.busy {
        return false;
      }
      if t.RemovePlayer? {
        RemovePlayer(t.key, s);
        return true;
      }
      var slot := FindPlayer(t.key);
      if slot.None? || !slots[slot.value].Active? {
        return true;
      }
      if t.key !in s.active || t.key !in s.inRoom {
        return true;
      }
      done := ProcessSpecificRoomTask(t, s);
    }

    method TryPostRoomDelete()
      requires Valid() && Counted()
      modifies this`state, this`posted
      ensures View() == Posted(old(View()))
    {
      if state != WAITING_DELETE || roomTasks.taskCount != 0 {
        return;
      }
      state := DELETE_POST;
      posted := posted + 1;
    }

    /** The task that had to wait gets the first attempt. */
    method RetryWaitingTask(s: Sessions) returns (done: bool)
      requires Valid() && waiting.Some?
      modifies this, slots
      ensures (View(), done) == Attempted(old(View()), s)
      ensures roomTasks.tasks == old(roomTasks.tasks) && (done ==> waiting.None?)
    {
      hide Tried;
      var t := waiting.value;
      waiting := None;
      TryChangesNothing(View(), t, s);
      TryLeavesTasks(View(), t, s);
      done := TryProcessRoomTask(t, s);
      if done {
        applied := applied + [t];
      } else {
        waiting := Some(t);
      }
    }

    /** The next queued task; a task that is not done is kept for the next drain. */
    method TakeTask(s: Sessions) returns (done: bool)
      requires Valid() && roomTasks.tasks != [] && waiting.None?
      modifies this, slots, roomTasks`tasks
      ensures (View(), done) == Attempted(old(View()), s)
      ensures roomTasks.tasks == old(roomTasks.tasks)[1..] && (done ==> waiting.None?)
    {
      hide Tried;
      ghost var before := View();
      var t := roomTasks.Dequeue();
      TryChangesNothing(View(), t, s);
      TryLeavesTasks(View(), t, s);
      done := TryProcessRoomTask(t, s);
      if done {
        applied := applied + [t];
      } else {
        waiting := Some(t);
      }
    }

    /** The task that had to wait, then all tasks claimed at once, until one has to wait; what
        is left of the claim goes back. If nothing is left the room may ask to be deleted. */
    method ProcessRoomTasks(views: seq<Sessions>)
      requires Valid() && Counted() && |views| >= 1 + |roomTasks.tasks|
      modifies this, slots, roomTasks
      ensures Counted() && View() == Processed(old(View()), views)
    {
      hide Attempted;
      var k := 0;
      if waiting.Some? {
        QueueShrinks(View(), views[0]);
        var done := RetryWaitingTask(views[0]);
        if !done {
          return;
        }
        k := 1;
      }
      var n := roomTasks.ClaimTaskCount();
      assert views[0..] == views;
      for i := 0 to n
        invariant Valid() && waiting.None? && roomTasks.taskCount == 0 && |roomTasks.tasks| == n - i
        invariant Drained(View(), views[k + i..], n - i) == Processed(old(View()), views)
      {
        assert views[k + i..][0] == views[k + i] && views[k + i..][1..] == views[k + i + 1..];
        var done := TakeTask(views[k + i]);
        if !done {
          roomTasks.RestoreClaimedTaskCount(n - i - 1);
          return;
        }
      }
      TryPostRoomDelete();
    }
  }

  lemma TryLeavesTasks(r: Room, t: RoomTask, s: Sessions)
    ensures SameTasks(r, Tried(r, t, s).0)
  {
  }

  /** An attempt that is not done leaves the room as it was. */
  lemma TryChangesNothing(r: Room, t: RoomTask, s: Sessions)
    ensures !Tried(r, t, s).1 ==> Tried(r, t, s).0 == r
  {
  }
}