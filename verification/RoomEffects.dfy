/** What each task of a room does to its slots, its host and what it tells the lobby: who gets in,
    who leaves, who stays, and when a room's queue has been worked off. */
module RoomEffects {
  import opened Rooms

  // ---------- Who sits where ----------

  /** No key is in two slots. */
  ghost predicate Unique(slots: seq<Slot>) {
    forall i, j, key :: 0 <= i < j < |slots| && Holds(slots[i], key) ==> !Holds(slots[j], key)
  }

  predicate Seated(slots: seq<Slot>, key: Key) {
    exists i :: 0 <= i < |slots| && Holds(slots[i], key)
  }

  lemma SeatedIsFound(slots: seq<Slot>, key: Key)
    ensures Seated(slots, key) <==> FindSlot(slots, key).Some?
  {
  }

  /** Everybody but this key sits where they sat, and the key sits nowhere. */
  ghost predicate OnlyGone(before: seq<Slot>, after: seq<Slot>, key: Key) {
    && |after| == |before|
    && (forall i :: 0 <= i < |after| ==> !Holds(after[i], key))
    && (forall i :: 0 <= i < |after| && !Holds(before[i], key) ==> after[i] == before[i])
  }

  lemma FreedIsOnlyGone(slots: seq<Slot>, key: Key)
    requires Unique(slots) && FindSlot(slots, key).Some?
    ensures OnlyGone(slots, slots[FindSlot(slots, key).value := Free], key)
  {
  }

  /** What a room keeps when a player goes, apart from slots, count, state, host and notices. */
  predicate SameOtherwise(r: Room, r': Room) {
    SameTasks(r, r') && r'.single == r.single && r'.password == r.password
  }

  // ---------- Leaving ----------

  /** A player of a room for several is removed: their slot alone is freed, the count goes down by
      one, the last one closes the room, and the host changes only if it was the host who went:
      then to the first active player left whose session is known. Nobody is told. */
  lemma RemovalIsExact(r: Room, key: Key, known: set<Key>)
    requires PlayersOk(r) && !r.single && Seated(r.slots, key)
    ensures var r' := Removed(r, key, known);
            && OnlyGone(r.slots, r'.slots, key) && r'.count == r.count - 1 && SameOtherwise(r, r') && r'.notices == r.notices
            && r'.state == (if r.count == 1 then WAITING_DELETE else r.state)
            && (r.host != Some(key) ==> r'.host == r.host)
            && (r.host == Some(key) && r.count > 1 ==> r'.host == NewHost(r'.slots, known))
            && (r.host == Some(key) && r.count == 1 ==> r'.host == None)
  {
    hide Rooms.Occupied;
    SeatedIsFound(r.slots, key);
    FreedIsOnlyGone(r.slots, key);
  }

  /** The player of a single-player room is removed: the room is empty and closes. */
  lemma SingleRemovalIsExact(r: Room, key: Key, known: set<Key>)
    requires PlayersOk(r) && r.single && Seated(r.slots, key)
    ensures var r' := Removed(r, key, known);
            r' == r.(slots := [Free], count := 0, state := WAITING_DELETE)
  {
    SeatedIsFound(r.slots, key);
  }

  lemma AbsentRemoval(r: Room, key: Key, known: set<Key>)
    requires !Seated(r.slots, key)
    ensures Removed(r, key, known) == r && LeftForLobby(r, key, known) == r
  {
    SeatedIsFound(r.slots, key);
  }

  /** Only an active player leaves for the lobby, which is told of exactly this one; otherwise it
      is as if they had been removed. */
  lemma LeavingIsExact(r: Room, key: Key, known: set<Key>)
    requires PlayersOk(r)
    ensures var r' := LeftForLobby(r, key, known);
            && (IsActivePlayer(r, key) ==> r' == Removed(r, key, known).(notices := r.notices + [EnterLobby(key)]))
            && (!IsActivePlayer(r, key) ==> r' == r)
  {
    hide Rooms.Occupied;
    var i := FindSlot(r.slots, key);
    if i.Some? && r.slots[i.value].Active? {
      var pending := r.slots[i.value := Pending(key)];
      assert FindSlot(pending, key) == i by { FoundAgain(r.slots, key, Pending(key)); }
      assert pending[i.value := Free] == r.slots[i.value := Free];
    }
  }

  lemma {:induction false} FoundAgain(slots: seq<Slot>, key: Key, slot: Slot)
    requires FindSlot(slots, key).Some? && Holds(slot, key)
    ensures FindSlot(slots[FindSlot(slots, key).value := slot], key) == FindSlot(slots, key)
  {
    var i := FindSlot(slots, key).value;
    var changed := slots[i := slot];
    assert Holds(changed[i], key);
    assert forall j :: 0 <= j < i ==> !Holds(changed[j], key);
  }

  // ---------- Joining ----------

  /** Who gets into a room. */
  predicate LetsIn(r: Room, key: Key, password: int) {
    !r.single && r.password == password && r.state == WAIT && !Seated(r.slots, key) && exists i :: 0 <= i < |r.slots| && r.slots[i].Free?
  }

  /** The key sits in the first slot that was free, everybody else where they were. */
  ghost predicate OnlyCame(before: seq<Slot>, after: seq<Slot>, key: Key) {
    exists i :: 0 <= i < |before| && before[i].Free? && after == before[i := Active(key)] && forall j :: 0 <= j < i ==> !before[j].Free?
  }

  lemma JoiningIsExact(r: Room, key: Key, password: int)
    ensures var (r', success) := Joined(r, key, password);
            && (success <==> LetsIn(r, key, password))
            && (success ==> OnlyCame(r.slots, r'.slots, key) && r' == r.(slots := r'.slots, count := r.count + 1))
            && (!success ==> r' == r)
  {
    SeatedIsFound(r.slots, key);
    var free := FindFree(r.slots);
    if free.Some? {
      assert r.slots[free.value].Free?;
    }
  }

  // ---------- Tasks ----------

  /** A join task waits only while another thread has the session. Done, it tells the lobby exactly
      whether the player got in: a live session in the lobby that the room lets in sits in the first
      free slot; everybody else is turned away and nothing else changes. */
  lemma JoinTask(r: Room, key: Key, password: int, s: Sessions)
    ensures var (r', done) := Tried(r, Join(key, password), s);
            var gotIn := key in s.known && key in s.active && key in s.inLobby && LetsIn(r, key, password);
            if key in s.known && key in s.busy then !done && r' == r
            else
              && done && r'.notices == r.notices + [JoinResult(key, gotIn)]
              && (gotIn ==> OnlyCame(r.slots, r'.slots, key) && r' == r.(slots := r'.slots, count := r.count + 1, notices := r'.notices))
              && (!gotIn ==> r' == r.(notices := r'.notices))
              && (gotIn <==> Seated(r'.slots, key) && !Seated(r.slots, key))
  {
    hide Seated, LetsIn, OnlyCame, Joined;
    JoiningIsExact(r, key, password);
    NowSeated(r, key, password);
  }

  lemma NowSeated(r: Room, key: Key, password: int)
    ensures Joined(r, key, password).1 ==> Seated(Joined(r, key, password).0.slots, key) && !Seated(r.slots, key)
  {
    SeatedIsFound(r.slots, key);
    var free := FindFree(r.slots);
    if Joined(r, key, password).1 {
      assert Holds(Joined(r, key, password).0.slots[free.value], key);
    }
  }

  /** The requester of a task may have it done: a live session in this room that is an active
      player. */
  predicate MayAsk(r: Room, key: Key, s: Sessions) {
    key in s.known && key in s.active && key in s.inRoom && IsActivePlayer(r, key)
  }

  /** Whom a room's host can have kicked. */
  predicate Kickable(r: Room, target: Key, s: Sessions) {
    Some(target) != r.host && IsActivePlayer(r, target) && target in s.known
  }

  /** A kick by the host takes exactly the target out of the room: everybody else keeps their slot,
      the host stays, and the lobby is told of the target alone. It waits while another thread has
      one of the two sessions; and any other kick changes nothing. */
  lemma KickTask(r: Room, key: Key, target: Key, s: Sessions)
    requires PlayersOk(r)
    ensures var (r', done) := Tried(r, Kick(key, target), s);
            var asks := MayAsk(r, key, s) && !r.single && r.host == Some(key) && Kickable(r, target, s);
            && (done <==> !(key in s.known && key in s.busy) && !(asks && target in s.busy))
            && (if done && asks && target in s.inRoom then
                  && OnlyGone(r.slots, r'.slots, target) && r'.count == r.count - 1 && r'.host == r.host
                  && r'.notices == r.notices + [EnterLobby(target)] && SameOtherwise(r, r')
                  && r'.state == (if r.count == 1 then WAITING_DELETE else r.state)
                else r' == r)
  {
    hide LeftForLobby, Removed, OnlyGone, Seated, FindSlot, PlayersOk;
    LeavingIsExact(r, target, s.known);
    if IsActivePlayer(r, target) {
      ActiveIsSeated(r, target);
      if !r.single {
        RemovalIsExact(r, target, s.known);
      }
    }
  }

  lemma ActiveIsSeated(r: Room, key: Key)
    requires IsActivePlayer(r, key)
    ensures Seated(r.slots, key)
  {
    SeatedIsFound(r.slots, key);
  }

  /** A removal waits only while another thread has the session. A live player goes to the lobby;
      one whose session is gone or dying is just removed. */
  lemma RemovalTask(r: Room, key: Key, s: Sessions)
    requires PlayersOk(r)
    ensures var (r', done) := Tried(r, RemovePlayer(key), s);
            if key in s.known && key in s.busy then !done && r' == r
            else
              done && if !(key in s.known && key in s.active) then r' == Removed(r, key, s.known)
                      else if IsActivePlayer(r, key) then r' == Removed(r, key, s.known).(notices := r.notices + [EnterLobby(key)])
                      else r' == r
  {
    hide LeftForLobby, Removed, PlayersOk;
    LeavingIsExact(r, key, s.known);
  }

  /** A game starts exactly when the room is waiting and its player asks, or its host does with
      everybody ready and somebody to play against; it is given up only in a single-player room. */
  lemma GameTasks(r: Room, key: Key, s: Sessions)
    requires key !in s.busy
    ensures var (r', done) := Tried(r, Start(key), s);
            done && r' == if MayAsk(r, key, s) && r.state == WAIT && (r.single || (r.host == Some(key) && s.allReady && r.count > 1))
                          then r.(state := PLAY) else r
    ensures var (r', done) := Tried(r, GiveUp(key), s);
            done && r' == if MayAsk(r, key, s) && r.state == PLAY && r.single then r.(state := WAIT) else r
    ensures Tried(r, Ready(key), s) == (r, true)
  {
    hide FindSlot;
  }

  // ---------- The queue ----------

  /** A task is let in exactly while the room is waiting or playing, behind all others. */
  lemma AddingIsExact(r: Room, t: RoomTask)
    ensures var (r', ok) := Added(r, t);
            && (ok <==> r.state == WAIT || r.state == PLAY)
            && r' == if ok then r.(queue := r.queue + [t], accepted := r.accepted + [t]) else r
  {
  }

  /** A drain stops only at a task that has to wait, and otherwise leaves nothing. */
  lemma {:induction false} DrainFinishes(r: Room, views: seq<Sessions>)
    requires r.waiting.None? && |views| >= |r.queue|
    ensures var r' := Drained(r, views, |r.queue|);
            && (HasTask(r') ==> r'.waiting.Some?)
            && ((forall i :: 0 <= i < |views| ==> views[i].busy == {}) ==> !HasTask(r'))
            && r'.accepted == r.accepted
            && (!HasTask(r') ==> r'.state != WAITING_DELETE)
    decreases |r.queue|
  {
    hide Attempted;
    if r.queue == [] {
      assert Drained(r, views, 0) == Posted(r);
    } else {
      var (r1, done) := Attempted(r, views[0]);
      QueueShrinks(r, views[0]);
      AttemptIsDone(r, views[0]);
      if done {
        DrainFinishes(r1, views[1..]);
      }
    }
  }

  lemma AttemptIsDone(r: Room, s: Sessions)
    requires HasTask(r)
    ensures var (r', done) := Attempted(r, s);
            && (s.busy == {} ==> done) && (!done ==> r'.waiting.Some?) && r'.accepted == r.accepted
  {
    var t := if r.waiting.Some? then r.waiting.value else r.queue[0];
    var r1 := if r.waiting.Some? then r.(waiting := None) else r.(queue := r.queue[1..]);
    TryLeavesTasks(r1, t, s);
    NeverWaitsForNobody(r1, t, s);
    hide Tried;
  }

  lemma NeverWaitsForNobody(r: Room, t: RoomTask, s: Sessions)
    ensures s.busy == {} ==> Tried(r, t, s).1
  {
  }

  /** A call of `ProcessRoomTasks` works everything off unless a task has to wait: with no session
      taken by another thread every accepted task has taken effect when it returns, and a room that
      was closing has asked to be deleted. */
  lemma ProcessingFinishes(r: Room, views: seq<Sessions>)
    requires Inv(r) && |views| >= 1 + |r.queue|
    ensures var r' := Processed(r, views);
            && (HasTask(r') ==> r'.waiting.Some?)
            && r'.accepted == r.accepted
            && ((forall i :: 0 <= i < |views| ==> views[i].busy == {}) ==>
                  !HasTask(r') && r'.applied == r.accepted && r'.state != WAITING_DELETE)
  {
    hide Attempted, Drained;
    ProcessKeeps(r, views);
    if r.waiting.Some? {
      var (r1, done) := Attempted(r, views[0]);
      QueueShrinks(r, views[0]);
      AttemptIsDone(r, views[0]);
      if done {
        DrainFinishes(r1, views[1..]);
      }
    } else {
      DrainFinishes(r, views);
    }
    var r' := Processed(r, views);
    if !HasTask(r') {
      assert r'.applied + [] + [] == r'.applied;
    }
  }

  // ---------- A room's first players ----------

  lemma LifeOne(r: Room, e: Event)
    requires CanHappen(r, e)
    ensures Life(r, [e]) == After(r, e)
  {
    assert [e][1..] == [];
  }

  lemma LifeTwo(r: Room, e: Event, f: Event)
    requires CanHappen(r, e) && CanHappen(After(r, e), f)
    ensures Life(r, [e, f]) == After(After(r, e), f)
  {
    hide CanHappen, After;
    assert [e, f][1..] == [f];
    LifeOne(After(r, e), f);
  }

  /** A room that has just been opened: its host sits in the first slot, and nobody else. */
  lemma Opened(single: bool, password: int, size: nat, host: Key)
    requires single || size > 0
    ensures var r := Life(NewRoom(single, password, size), [Open(host)]);
            && r.slots == [Active(host)] + seq(if single then 0 else size - 1, _ => Free)
            && r == NewRoom(single, password, size).(slots := r.slots, count := 1, state := WAIT, host := if single then None else Some(host))
  {
    LifeOne(NewRoom(single, password, size), Open(host));
  }

  /** Whoever can join a room of two players or more that has just been opened sits behind the host. */
  lemma SecondPlayer(r: Room, host: Key, guest: Key, s: Sessions)
    requires |r.slots| >= 2 && r.slots[0] == Active(host) && (forall i :: 1 <= i < |r.slots| ==> r.slots[i].Free?)
    requires !r.single && r.state == WAIT && guest != host && !HasTask(r) && r.accepted == r.applied
    requires guest in s.known && guest !in s.busy && guest in s.active && guest in s.inLobby
    ensures Life(r, [Add(Join(guest, r.password)), Attempt(s)]) ==
              r.(slots := r.slots[1 := Active(guest)], count := r.count + 1, notices := r.notices + [JoinResult(guest, true)],
                 accepted := r.accepted + [Join(guest, r.password)], applied := r.applied + [Join(guest, r.password)])
  {
    var t := Join(guest, r.password);
    var asked := After(r, Add(t));
    assert asked.queue == [t] && asked.queue[1..] == [];
    LifeTwo(r, Add(t), Attempt(s));
    var ready := asked.(queue := []);
    JoinTask(ready, guest, r.password, s);
    assert !Seated(ready.slots, guest) && ready.slots[1].Free?;
    assert LetsIn(ready, guest, r.password);
    hide Tried;
  }

  /** A host who leaves hands the room to the first active player left. */
  lemma HostLeaves(r: Room, guest: Key, host: Key, s: Sessions)
    requires PlayersOk(r) && !r.single && r.count == 2 && |r.slots| >= 2 && host != guest
    requires r.slots[0] == Active(host) && r.slots[1] == Active(guest) && r.host == Some(host) && guest in s.known
    ensures Life(r, [Leave(host, s)]) ==
              r.(slots := r.slots[0 := Free], count := 1, host := Some(guest), notices := r.notices + [EnterLobby(host)])
  {
    LifeOne(r, Leave(host, s));
    LeavingIsExact(r, host, s.known);
    assert Holds(r.slots[0], host) && FindSlot(r.slots, host) == Some(0);
    var slots := r.slots[0 := Free];
    assert !MayHost(slots[0], s.known) && MayHost(slots[1], s.known);
    hide Rooms.Occupied;
  }
}
