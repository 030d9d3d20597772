/** How a session can end up with nobody to work on it, exactly when, and what becomes of it. */
module Orphans {
  import opened Ownership

  // ---------- Lost means unowned ----------

  lemma LostIsWeightless(s: State, i: nat, p: Owner)
    requires SlotsOk(s) && i < |s.sessions| && s.sessions[i].life != NONE && s.where[i].Lost?
    ensures Weight(s, KeyAt(s, i), p) == 0
  {
    SlotFacts(s, i);
    var (k, w) := (KeyAt(s, i), s.where[i]);
    hide SlotsOk, Tasks, IsIn;
    match p
    case ByAdd => assert Tasks(s)[Add(k)] == Due(k, w)[Add(k)];
    case ByCreate => assert Tasks(s)[Create(k)] == Due(k, w)[Create(k)];
    case ByFailure => assert Tasks(s)[Result(k, false)] == Due(k, w)[Result(k, false)];
    case ByJoin(r) => assert Tasks(s)[Join(k, r)] == Due(k, w)[Join(k, r)];
    case ByEnter(r) => assert Tasks(s)[Enter(k, r)] == Due(k, w)[Enter(k, r)];
    case _ =>
  }

  /** Nobody owns or carries the session. */
  ghost predicate Unowned(s: State, i: nat)
    requires Shaped(s) && i < |s.sessions|
  {
    forall p :: Weight(s, KeyAt(s, i), p) == 0
  }

  /** A session has exactly one owner or carrier, or none at all. */
  lemma OwnedOrOrphan(s: State, i: nat)
    requires SlotsOk(s) && i < |s.sessions| && s.sessions[i].life != NONE
    ensures OwnedOnce(s, i) <==> !s.where[i].Lost?
    ensures Unowned(s, i) <==> s.where[i].Lost?
  {
    assert Shaped(s);
    hide SlotsOk, Weight;
    var k := KeyAt(s, i);
    if s.where[i].Lost? {
      forall p
        ensures Weight(s, k, p) == 0
      {
        LostIsWeightless(s, i, p);
      }
      forall o
        ensures !OwnedBy(s, k, o)
      {
        assert Weight(s, k, o) != Bit(o == o);
      }
    } else {
      PlacedIsOwned(s, i);
      WeightAt(s, i, OwnerAt(s.where[i]));
    }
  }

  /** Active, with no owner and no carrier. */
  ghost predicate Orphan(s: State, k: Key) {
    Shaped(s) && Current(s, k) && s.sessions[k.slot].life == ACTIVE && Unowned(s, k.slot)
  }

  // ---------- Which step loses a session ----------

  /** An arrival in the lobby that overtakes the news of the session's own entry into the room. */
  predicate Overtakes(s: State, step: Step, k: Key) {
    && step.RunLobby? && step.index < |s.lobby| && s.lobby[step.index].Enter? && s.lobby[step.index].key == k
    && Result(k, true) in s.lobby
  }

  /** What a step may do to a session that stays active: nothing about its being lost. */
  ghost predicate NotLost(s: State, s': State, i: nat)
    requires Shaped(s) && i < |s.sessions|
  {
    && Shaped(s') && |s'.sessions| == |s.sessions|
    && (s.sessions[i].life == ACTIVE && s'.sessions[i].life == ACTIVE ==>
          && s'.sessions[i].id == s.sessions[i].id && (s'.where[i].Lost? <==> s.where[i].Lost?))
  }

  lemma ArrivalLoses(s: State, j: nat, i: nat)
    requires Inv(s) && j < |s.lobby| && i < |s.sessions| && s.sessions[i].life == ACTIVE
    requires s.lobby[j].Enter? && s.lobby[j].key == KeyAt(s, i)
    ensures LobbyRun(s, j).where[i].Lost? <==> Result(KeyAt(s, i), true) in s.lobby
    ensures !s.where[i].Lost?
  {
    var k := KeyAt(s, i);
    PoppedTells(s, j, k);
    SlotFacts(s, i);
    var (w, t) := (s.where[i], Result(k, true));
    assert Tasks(s)[t] == Due(k, w)[t];
    assert t !in s.work;
    assert t in multiset(s.lobby) <==> t in s.lobby;
  }

  lemma AddLoses(s: State, l: Key, i: nat)
    requires Shaped(s) && i < |s.sessions|
    requires l == KeyAt(s, i) && Current(s, l) ==> s.sessions[i].mode == LOGIN && s.entries[i] == Empty && l.id > 0 && !s.where[i].Lost?
    ensures NotLost(s, AddRun(s, l), i)
  {
  }

  lemma ResultLoses(s: State, l: Key, success: bool, i: nat)
    requires Shaped(s) && i < |s.sessions|
    requires l == KeyAt(s, i) && Current(s, l) && !success ==> s.entries[i] == Pending(l.id) && l.id > 0 && !s.where[i].Lost?
    ensures NotLost(s, ResultRun(s, l, success), i)
  {
  }

  lemma EnterLoses(s: State, l: Key, r: nat, i: nat)
    requires Shaped(s) && i < |s.sessions| && l != KeyAt(s, i)
    ensures NotLost(s, EnterRun(s, l, r), i)
  {
  }

  lemma DisconnectLoses(s: State, l: Key, i: nat)
    requires Shaped(s) && i < |s.sessions|
    ensures NotLost(s, DisconnectRun(s, l), i)
  {
  }

  lemma LobbyLoses(s: State, j: nat, i: nat)
    requires Inv(s) && j < |s.lobby| && i < |s.sessions| && !(s.lobby[j].Enter? && s.lobby[j].key == KeyAt(s, i))
    ensures NotLost(s, LobbyRun(s, j), i)
  {
    var (t, k) := (s.lobby[j], KeyAt(s, i));
    assert t in multiset(s.lobby);
    if !t.Delete? && t.key == k && Carries(t, k) && s.sessions[i].life != NONE {
      PoppedTells(s, j, k);
    }
    var s1 := Popped(s, j);
    hide Inv, NotLost, AddRun, ResultRun, EnterRun, DisconnectRun;
    match t {
      case Add(l) => AddLoses(s1, l, i);
      case Result(l, success) => ResultLoses(s1, l, success, i);
      case Enter(l, r) => EnterLoses(s1, l, r, i);
      case Disconnect(l) => DisconnectLoses(s1, l, i);
    }
    SameLoss(s, j, LobbyRun(s, j), i);
  }

  lemma SameLoss(s: State, j: nat, s': State, i: nat)
    requires Shaped(s) && j < |s.lobby| && i < |s.sessions| && NotLost(Popped(s, j), s', i)
    ensures NotLost(s, s', i)
  {
  }

  /** The rooms and the lifecycle carry only sessions that are not lost. */
  lemma WorkTells(s: State, t: Task, i: nat)
    requires Inv(s) && i < |s.sessions| && t in s.work && IsTransition(t, KeyAt(s, i), if t.Join? then t.room else 0)
    ensures s.sessions[i].life != NONE ==> !s.where[i].Lost?
  {
    if s.sessions[i].life != NONE {
      TransitionTells(s, t, KeyAt(s, i), if t.Join? then t.room else 0);
    }
  }

  lemma JoinLoses(s: State, l: Key, r: nat, admit: bool, i: nat)
    requires Inv(s) && CanStep(s, RunJoin(l, r, admit)) && i < |s.sessions|
    ensures NotLost(s, JoinRun(s, l, r, admit), i)
  {
    if l == KeyAt(s, i) {
      WorkTells(s, Join(l, r), i);
    }
    hide Inv;
  }

  lemma CreateLoses(s: State, l: Key, r: nat, succeed: bool, i: nat)
    requires Inv(s) && CanStep(s, RunCreate(l, r, succeed)) && i < |s.sessions|
    ensures NotLost(s, CreateRun(s, l, r, succeed), i)
  {
    if l == KeyAt(s, i) {
      WorkTells(s, Create(l), i);
    }
    hide Inv;
  }

  lemma LeftLoses(s: State, l: Key, r: nat, i: nat)
    requires Shaped(s) && RoomExists(s, r) && i < |s.sessions|
    requires l == KeyAt(s, i) && IsIn(s, l, r) ==> !s.where[i].Lost?
    ensures NotLost(s, Left(s, l, r), i) && NotLost(s, Removed(s, l, r), i)
  {
  }

  lemma RemovalLoses(s: State, step: Step, i: nat)
    requires Inv(s) && CanStep(s, step) && (step.Leave? || step.RunRemove?) && i < |s.sessions|
    ensures NotLost(s, Next(s, step), i)
  {
    if IsIn(s, KeyAt(s, i), step.room) {
      PlayerFacts(s, KeyAt(s, i), step.room);
    }
    hide Inv, Left, Removed;
    LeftLoses(s, step.key, step.room, i);
    LeftLoses(s.(work := s.work - multiset{Remove(step.key, step.room)}), step.key, step.room, i);
  }

  lemma BegunLoses(s: State, j: nat, r: nat, i: nat)
    requires Shaped(s) && j < |s.sessions| && RoomExists(s, r) && i < |s.sessions| && (j == i ==> !s.where[i].Lost?)
    ensures NotLost(s, JoinBegun(s, j, r), i)
  {
  }

  lemma CreateBegunLoses(s: State, j: nat, i: nat)
    requires Shaped(s) && j < |s.sessions| && i < |s.sessions| && (j == i ==> !s.where[i].Lost?)
    ensures NotLost(s, CreateBegun(s, j), i)
  {
  }

  /** Whom the lobby works on is not lost. */
  lemma ConsumedIsNotLost(s: State, i: nat)
    requires SlotsOk(s) && LobbyConsumes(s, i)
    ensures !s.where[i].Lost?
  {
    SlotFacts(s, i);
  }

  lemma BeginningLoses(s: State, step: Step, i: nat)
    requires Inv(s) && CanStep(s, step) && (step.BeginJoin? || step.BeginCreate?) && i < |s.sessions|
    ensures NotLost(s, Next(s, step), i)
  {
    ConsumedIsNotLost(s, step.slot);
    hide Inv, NotLost, JoinBegun, CreateBegun;
    if step.BeginJoin? {
      BegunLoses(s, step.slot, step.room, i);
    } else {
      CreateBegunLoses(s, step.slot, i);
    }
  }

  lemma SessionLoses(s: State, step: Step, i: nat)
    requires CanStep(s, step) && i < |s.sessions|
    requires step.BeginDisconnect? || step.RegisterIO? || step.CompleteIO? || step.AddSessionTask? || step.RunSessionTask?
    ensures NotLost(s, Next(s, step), i)
  {
  }

  lemma OtherLoses(s: State, step: Step, i: nat)
    requires CanStep(s, step) && i < |s.sessions|
    requires step.Accept? || step.Login? || step.Requeue? || step.RunDelete? || step.PostDelete?
    ensures NotLost(s, Next(s, step), i)
  {
  }

  lemma StepLoses(s: State, step: Step, i: nat)
    requires Inv(s) && CanStep(s, step) && i < |s.sessions| && !(step.RunLobby? && s.lobby[step.index].Enter? && s.lobby[step.index].key == KeyAt(s, i))
    ensures NotLost(s, Next(s, step), i)
  {
    hide Inv, NotLost;
    match step {
      case RunLobby(j) => LobbyLoses(s, j, i);
      case RunJoin(l, r, admit) => JoinLoses(s, l, r, admit, i);
      case RunCreate(l, r, succeed) => CreateLoses(s, l, r, succeed, i);
      case Leave(_, _) => RemovalLoses(s, step, i);
      case RunRemove(_, _) => RemovalLoses(s, step, i);
      case BeginJoin(_, _) => BeginningLoses(s, step, i);
      case BeginCreate(_) => BeginningLoses(s, step, i);
      case Accept(_) => OtherLoses(s, step, i);
      case Login(_, _) => OtherLoses(s, step, i);
      case Requeue(_) => OtherLoses(s, step, i);
      case RunDelete(_) => OtherLoses(s, step, i);
      case PostDelete(_) => OtherLoses(s, step, i);
      case _ => SessionLoses(s, step, i);
    }
  }

  /** The lobby's tasks in any order: a step leaves a session that is active, and was owned, with
      no owner and no carrier if and only if it is such an arrival. */
  lemma OrphanedExactly(s: State, step: Step, i: nat)
    requires Inv(s) && CanStep(s, step) && i < |s.sessions| && s.sessions[i].life == ACTIVE && OwnedOnce(s, i)
    requires Shaped(Next(s, step)) && |Next(s, step).sessions| == |s.sessions| && Next(s, step).sessions[i].life == ACTIVE
    ensures OwnedOnce(Next(s, step), i) <==> !Overtakes(s, step, KeyAt(s, i))
    ensures Unowned(Next(s, step), i) <==> Overtakes(s, step, KeyAt(s, i))
  {
    StepKeeps(s, step);
    assert SlotsOk(s) && SlotsOk(Next(s, step));
    hide Inv, SlotsOk, OwnedOnce, Unowned, CanStep, Next;
    OwnedOrOrphan(s, i);
    OwnedOrOrphan(Next(s, step), i);
    if step.RunLobby? && step.index < |s.lobby| && s.lobby[step.index].Enter? && s.lobby[step.index].key == KeyAt(s, i) {
      RunsLobby(s, step);
      ArrivalLoses(s, step.index, i);
    } else {
      StepLoses(s, step, i);
    }
  }

  lemma RunsLobby(s: State, step: Step)
    requires CanStep(s, step) && step.RunLobby?
    ensures Next(s, step) == LobbyRun(s, step.index)
  {
  }

  // ---------- It happens ----------

  /** Two lobby threads can make it happen: a player creates a room and leaves it at once, and
      the arrival is processed before the news that the room was created. */
  const OVERTAKING: seq<Step> :=
    [Accept(0), RunLobby(0), Login(0, 7), BeginCreate(0), RunCreate(Key(0, 1), 0, true), Leave(Key(0, 1), 0), RunLobby(1), RunLobby(0)]

  /** The states of that story. */
  function Overtaken(n: nat): State
    requires n <= 8
  {
    var k := Key(0, 1);
    var x := if n == 0 then FREE_SESSION
             else if n < 3 then Session(ACTIVE, LOGIN, 1, None, [], 0)
             else Session(ACTIVE, if n < 5 then LOBBY else ROOM(0), 1, Some(7), [], 0);
    State([x],
          [if n == 2 || n == 3 then Active(1) else if 4 <= n <= 7 then Pending(1) else Empty],
          [if n < 5 then None else if n == 5 then Some(Room(OPEN, {k})) else Some(Room(CLOSING, {}))],
          if n < 3 then map[] else map[7 := k],
          if n == 1 then [Add(k)] else if n == 5 || n == 7 then [Result(k, true)] else if n == 6 then [Result(k, true), Enter(k, 0)] else [],
          if n == 4 then multiset{Create(k)} else multiset{},
          if n == 0 then 1 else 2,
          [if n == 0 then Nowhere else if n == 1 then InAdd else if n < 4 then InLobby else if n == 4 then InCreate
           else if n == 5 then InRoom(0, false) else if n == 6 then Leaving(0, false) else Lost(n == 8)])
  }

  lemma OvertakingStarts(n: nat)
    requires n < 2
    ensures CanStep(Overtaken(n), OVERTAKING[n]) && Next(Overtaken(n), OVERTAKING[n]) == Overtaken(n + 1)
  {
  }

  lemma OvertakingLogin(n: nat)
    requires 2 <= n < 4
    ensures CanStep(Overtaken(n), OVERTAKING[n]) && Next(Overtaken(n), OVERTAKING[n]) == Overtaken(n + 1)
  {
    if n == 2 {
      assert Next(Overtaken(n), OVERTAKING[n]).logins == map[7 := Key(0, 1)];
    }
  }

  lemma OvertakingLeave(n: nat)
    requires 4 <= n < 6
    ensures CanStep(Overtaken(n), OVERTAKING[n]) && Next(Overtaken(n), OVERTAKING[n]) == Overtaken(n + 1)
  {
    if n == 4 {
      assert multiset{Create(Key(0, 1))} - multiset{Create(Key(0, 1))} == multiset{};
    } else {
      assert {Key(0, 1)} - {Key(0, 1)} == {};
    }
  }

  lemma OvertakingEnds(n: nat)
    requires 6 <= n < 8
    ensures CanStep(Overtaken(n), OVERTAKING[n]) && Next(Overtaken(n), OVERTAKING[n]) == Overtaken(n + 1)
  {
  }

  lemma {:induction false} OvertakingRun(n: nat)
    requires n <= 8
    ensures Run(Overtaken(n), OVERTAKING[n..]) == Overtaken(8)
    decreases 8 - n
  {
    hide Next, CanStep, Overtaken;
    if n < 8 {
      if n < 2 {
        OvertakingStarts(n);
      } else if n < 4 {
        OvertakingLogin(n);
      } else if n < 6 {
        OvertakingLeave(n);
      } else {
        OvertakingEnds(n);
      }
      assert OVERTAKING[n..][0] == OVERTAKING[n] && OVERTAKING[n..][1..] == OVERTAKING[n + 1..];
      OvertakingRun(n + 1);
    }
  }

  /** The lobby has no entry, no room has the player, and nothing at all is in flight. */
  lemma OvertakingOrphans()
    ensures var s := Run(Begin(1, 1), OVERTAKING);
            && Orphan(s, Key(0, 1)) && s.entries == [Empty] && Tasks(s) == multiset{}
  {
    hide Run;
    assert Begin(1, 1) == Overtaken(0) && OVERTAKING[0..] == OVERTAKING;
    OvertakingRun(0);
  }

  // ---------- What becomes of an orphan ----------

  /** Nobody works on a session that is lost. */
  lemma LostIsIdle(s: State, i: nat)
    requires SlotsOk(s) && i < |s.sessions| && s.sessions[i].life == ACTIVE && s.where[i].Lost?
    ensures !Consumes(s, i)
  {
    SlotFacts(s, i);
    hide Carried;
  }

  /** The tasks of `i` stay queued, in their order, and it stays who it is. */
  predicate Waits(s: State, s': State, i: nat)
    requires i < |s.sessions|
  {
    && i < |s'.sessions| && s'.sessions[i].life == ACTIVE && s'.sessions[i].id == s.sessions[i].id
    && s'.sessions[i].player == s.sessions[i].player && s.sessions[i].tasks <= s'.sessions[i].tasks
  }

  lemma LobbyWaits(s: State, j: nat, i: nat)
    requires Shaped(s) && j < |s.lobby| && i < |s.sessions| && s.sessions[i].life == ACTIVE
    ensures Waits(s, LobbyRun(s, j), i)
  {
  }

  lemma RoomWaits(s: State, step: Step, i: nat)
    requires CanStep(s, step) && i < |s.sessions| && s.sessions[i].life == ACTIVE && (step.RunJoin? || step.RunCreate?)
    ensures Waits(s, Next(s, step), i)
  {
  }

  lemma RemovalWaits(s: State, l: Key, r: nat, i: nat)
    requires Shaped(s) && RoomExists(s, r) && i < |s.sessions| && s.sessions[i].life == ACTIVE
    ensures Waits(s, Left(s, l, r), i) && Waits(s, Removed(s, l, r), i)
  {
  }

  lemma OtherWaits(s: State, step: Step, i: nat)
    requires CanStep(s, step) && i < |s.sessions| && s.sessions[i].life == ACTIVE && !Consumes(s, i)
    requires !step.RunLobby? && !step.RunJoin? && !step.RunCreate? && !step.Leave? && !step.RunRemove?
    ensures Waits(s, Next(s, step), i)
  {
  }

  lemma StepOrphans(s: State, step: Step, k: Key)
    requires Inv(s) && CanStep(s, step) && Orphan(s, k)
    ensures Orphan(Next(s, step), k) && Waits(s, Next(s, step), k.slot)
  {
    var i := k.slot;
    assert SlotsOk(s) && KeyAt(s, i) == k;
    StepKeeps(s, step);
    assert SlotsOk(Next(s, step));
    hide Inv, SlotsOk, Unowned, CanStep, Next, Consumes;
    OwnedOrOrphan(s, i);
    LostIsIdle(s, i);
    if step.RunLobby? {
      RunsLobby(s, step);
      LobbyWaits(s, step.index, i);
    } else if step.RunJoin? || step.RunCreate? {
      RoomWaits(s, step, i);
    } else if step.Leave? || step.RunRemove? {
      RemovesPlayer(s, step);
      RemovalWaits(s, step.key, step.room, i);
      RemovalWaits(s.(work := s.work - multiset{Remove(step.key, step.room)}), step.key, step.room, i);
    } else {
      OtherWaits(s, step, i);
    }
    StillLost(s, step, i);
    OwnedOrOrphan(Next(s, step), i);
  }

  lemma RemovesPlayer(s: State, step: Step)
    requires CanStep(s, step) && (step.Leave? || step.RunRemove?)
    ensures Shaped(s) && RoomExists(s, step.room)
    ensures Next(s, step) == if step.Leave? then Left(s, step.key, step.room)
                             else Removed(s.(work := s.work - multiset{Remove(step.key, step.room)}), step.key, step.room)
  {
  }

  lemma StillLost(s: State, step: Step, i: nat)
    requires Inv(s) && CanStep(s, step) && i < |s.sessions| && s.sessions[i].life == ACTIVE && s.where[i].Lost?
    requires Waits(s, Next(s, step), i)
    ensures Shaped(Next(s, step)) && Next(s, step).where[i].Lost?
  {
    hide Inv, Next;
    if step.RunLobby? && s.lobby[step.index].Enter? && s.lobby[step.index].key == KeyAt(s, i) {
      ArrivalLoses(s, step.index, i);
      assert false;
    } else {
      StepLoses(s, step, i);
    }
  }

  /** Whatever follows, an orphan stays one: it is never disconnected and its slot never becomes
      free, whatever is queued for it waits for ever, and its account cannot log in again. */
  lemma {:induction false} OrphanForever(s: State, steps: seq<Step>, k: Key)
    requires Inv(s) && Orphan(s, k)
    ensures var s' := Run(s, steps);
            && Orphan(s', k) && Waits(s, s', k.slot) && !Consumes(s', k.slot)
            && forall i, p :: 0 <= i < |s'.sessions| && s.sessions[k.slot].player == Some(p) ==> LoggedIn(s', i, p) == s'
    decreases |steps|
  {
    hide Inv, Orphan, CanStep, Next, Consumes;
    if steps == [] {
      OrphanNow(s, k);
    } else {
      if CanStep(s, steps[0]) {
        StepKeeps(s, steps[0]);
        StepOrphans(s, steps[0], k);
      }
      OrphanNow(s, k);
      OrphanForever(if CanStep(s, steps[0]) then Next(s, steps[0]) else s, steps[1..], k);
    }
  }

  lemma OrphanNow(s: State, k: Key)
    requires Inv(s) && Orphan(s, k)
    ensures Shaped(s) && Current(s, k) && Waits(s, s, k.slot) && !Consumes(s, k.slot)
    ensures forall i, p :: 0 <= i < |s.sessions| && s.sessions[k.slot].player == Some(p) ==> LoggedIn(s, i, p) == s
  {
    assert SlotsOk(s);
    OwnedOrOrphan(s, k.slot);
    LostIsIdle(s, k.slot);
    hide SlotsOk, RoomsOk, TasksOk, Unowned, Consumes;
  }
}
