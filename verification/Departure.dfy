/** What becomes of a session that is being disconnected: until its slot is free there is always
    something that carries its disconnect on. As in `Ownership`, a completion is one step, and so
    is the beginning of a disconnect. With their loads and swaps as steps of their own, what
    holds of a slot that is reused cleanly is `SlotReuse.CleanReuseIsSafe`, and what can go wrong
    otherwise is in `SlotReuse` too. */
module Departure {
  import opened Ownership

  /** The session is to be freed: its last I/O is done. */
  predicate Dying(s: State, k: Key) {
    Current(s, k) && s.sessions[k.slot].life == DISCONNECTING
  }

  /** The session is being disconnected. */
  predicate OnItsWay(s: State, k: Key) {
    Current(s, k) && s.sessions[k.slot].life != ACTIVE
  }

  /** How often the disconnect of `k` is queued. */
  function Queued(lobby: seq<Task>, k: Key): nat {
    multiset(lobby)[Disconnect(k)]
  }

  /** A task in flight carries the disconnect on: the lobby's own, or the removal from the room
      that the session is in. */
  ghost predicate CarriedOn(s: State, k: Key) {
    Disconnect(k) in Tasks(s) || exists r: nat :: IsIn(s, k, r) && Remove(k, r) in Tasks(s)
  }

  // ---------- The invariant ----------

  /** The disconnect of a session is queued only once it is due; a session that is being
      disconnected in room mode is in that room, and its disconnect is queued once or has been
      handed to the room; any other is queued. */
  predicate Served(s: State, k: Key) {
    Current(s, k) ==>
      var (x, n) := (s.sessions[k.slot], Queued(s.lobby, k));
      match x.life
      case DISCONNECT_PENDING => n == 0 && x.pending > 0 && NoRemoval(s, k) && (x.mode.ROOM? ==> IsIn(s, k, x.mode.room))
      case DISCONNECTING =>
        && x.pending == 0
        && if x.mode.ROOM? then IsIn(s, k, x.mode.room) && n <= 1 && (n == 0 ==> Remove(k, x.mode.room) in s.work) else n > 0
      case _ => n == 0 && NoRemoval(s, k)
  }

  /** No room has been asked to remove the session because of a disconnect. */
  predicate NoRemoval(s: State, k: Key) {
    forall t :: t in s.work && t.Remove? ==> t.key != k
  }

  lemma PoppedCount(s: State, j: nat, k: Key)
    requires j < |s.lobby|
    ensures Queued(s.lobby, k) == Queued(Popped(s, j).lobby, k) + if s.lobby[j] == Disconnect(k) then 1 else 0
  {
    assert s.lobby == s.lobby[..j] + ([s.lobby[j]] + s.lobby[j + 1..]);
  }

  lemma SentCount(lobby: seq<Task>, t: Task, k: Key)
    ensures Queued(lobby + [t], k) == Queued(lobby, k) + if t == Disconnect(k) then 1 else 0
  {
  }

  /** What is known of a key in a state that can be reached. */
  lemma KeyFacts(s: State, k: Key)
    requires Inv(s)
    ensures Shaped(s)
    ensures k.id >= s.nextId ==> Queued(s.lobby, k) == 0 && NoRemoval(s, k)
    ensures forall r: nat :: IsIn(s, k, r) ==> Current(s, k) && s.sessions[k.slot].mode == ROOM(r) && s.rooms[r].value.state == OPEN
    ensures Disconnect(k) in Tasks(s) <==> Queued(s.lobby, k) > 0
    ensures forall t :: t in s.work ==> t in Tasks(s)
    ensures forall r: nat :: Remove(k, r) in Tasks(s) ==> Remove(k, r) in s.work
  {
    if Current(s, k) {
      SlotFacts(s, k.slot);
    }
    hide SlotsOk;
    assert Disconnect(k) in multiset(s.lobby) ==> Disconnect(k) in Tasks(s);
    forall r: nat | IsIn(s, k, r)
      ensures Current(s, k) && s.sessions[k.slot].mode == ROOM(r) && s.rooms[r].value.state == OPEN
    {
      assert Current(s, k) && s.rooms[r].value.players != {};
    }
    forall t | t in s.work && t.Remove? && t.key == k
      ensures k.id < s.nextId
    {
      assert t in Tasks(s);
    }
  }

  // ---------- Steps that do not matter to a disconnect ----------

  /** Nothing happened to `k` that its disconnect depends on, but for the lobby's queue. */
  ghost predicate Undisturbed(s: State, s': State, k: Key) {
    Current(s', k) ==>
      && Current(s, k)
      && (NoRemoval(s, k) ==> NoRemoval(s', k))
      && var (x, x') := (s.sessions[k.slot], s'.sessions[k.slot]);
         && x'.life == x.life
         && (x.life != ACTIVE ==>
               && x'.mode == x.mode && x'.pending == x.pending
               && (x.mode.ROOM? && IsIn(s, k, x.mode.room) ==>
                     IsIn(s', k, x.mode.room) && (Remove(k, x.mode.room) in s.work ==> Remove(k, x.mode.room) in s'.work)))
  }

  ghost predicate Unaffected(s: State, s': State, k: Key) {
    Undisturbed(s, s', k) && Queued(s'.lobby, k) == Queued(s.lobby, k)
  }

  lemma UnaffectedServes(s: State, s': State, k: Key)
    requires Unaffected(s, s', k) && Served(s, k)
    ensures Served(s', k)
  {
    hide IsIn, Queued, NoRemoval;
  }

  lemma Twice(s: State, s1: State, s2: State, k: Key)
    requires Unaffected(s, s1, k) && Unaffected(s1, s2, k)
    ensures Unaffected(s, s2, k)
  {
    hide IsIn, Queued, NoRemoval;
  }

  /** The lobby is sent at most one task, and it is not the disconnect of `k`. */
  predicate Quiet(s: State, s': State, k: Key) {
    s'.lobby == s.lobby ||
    (|s'.lobby| == |s.lobby| + 1 && s'.lobby[|s.lobby|] != Disconnect(k) && s'.lobby == s.lobby + [s'.lobby[|s.lobby|]])
  }

  lemma QuietlyUnaffected(s: State, s': State, k: Key)
    requires Undisturbed(s, s', k) && Quiet(s, s', k)
    ensures Unaffected(s, s', k)
  {
    hide Undisturbed;
    if s'.lobby != s.lobby {
      SentCount(s.lobby, s'.lobby[|s.lobby|], k);
    }
  }

  lemma AddIsQuiet(s: State, l: Key, k: Key)
    requires Shaped(s)
    ensures Undisturbed(s, AddRun(s, l), k) && Quiet(s, AddRun(s, l), k)
  {
  }

  lemma ResultIsQuiet(s: State, l: Key, success: bool, k: Key)
    requires Shaped(s)
    ensures Undisturbed(s, ResultRun(s, l, success), k) && Quiet(s, ResultRun(s, l, success), k)
  {
  }

  lemma EnterIsQuiet(s: State, l: Key, r: nat, k: Key)
    requires Shaped(s)
    ensures Undisturbed(s, EnterRun(s, l, r), k) && Quiet(s, EnterRun(s, l, r), k)
  {
  }

  lemma DisconnectIsQuiet(s: State, l: Key, k: Key)
    requires Shaped(s) && l != k
    ensures Undisturbed(s, DisconnectRun(s, l), k) && Quiet(s, DisconnectRun(s, l), k)
  {
  }

  /** A lobby task other than the disconnect of `k`. */
  lemma LobbyUnaffected(s: State, j: nat, k: Key)
    requires Shaped(s) && j < |s.lobby| && IsLobbyTask(s.lobby[j]) && s.lobby[j] != Disconnect(k)
    ensures Unaffected(s, LobbyRun(s, j), k)
  {
    var s1 := Popped(s, j);
    PoppedCount(s, j, k);
    assert Unaffected(s, s1, k);
    hide Undisturbed, Quiet, Unaffected, AddRun, ResultRun, EnterRun, DisconnectRun;
    match s.lobby[j] {
      case Add(l) => AddIsQuiet(s1, l, k);
      case Result(l, success) => ResultIsQuiet(s1, l, success, k);
      case Enter(l, r) => EnterIsQuiet(s1, l, r, k);
      case Disconnect(l) => DisconnectIsQuiet(s1, l, k);
    }
    QuietlyUnaffected(s1, LobbyRun(s, j), k);
    Twice(s, s1, LobbyRun(s, j), k);
  }

  /** Someone else loses the slot in a room, or `k` is not in that room. */
  lemma ClearedIsQuiet(s: State, l: Key, r: nat, k: Key)
    requires Shaped(s) && RoomExists(s, r) && (l != k || !IsIn(s, k, r))
    ensures Unaffected(s, SlotCleared(s, l, r), k)
  {
    QuietlyUnaffected(s, SlotCleared(s, l, r), k);
  }

  lemma LeftIsQuiet(s: State, l: Key, r: nat, k: Key)
    requires Shaped(s) && RoomExists(s, r) && (l != k || !IsIn(s, k, r))
    ensures Unaffected(s, Left(s, l, r), k)
  {
    if l in s.rooms[r].value.players {
      var s1 := SlotCleared(s, l, r);
      ClearedIsQuiet(s, l, r, k);
      hide SlotCleared, Unaffected;
      QuietlyUnaffected(s1, Left(s, l, r), k);
      Twice(s, s1, Left(s, l, r), k);
    }
  }

  lemma RemoveIsQuiet(s: State, l: Key, r: nat, k: Key)
    requires Shaped(s) && RoomExists(s, r) && (l != k || !IsIn(s, k, r))
    ensures Unaffected(s, RemoveRun(s, l, r), k)
  {
    var s1 := s.(work := s.work - multiset{Remove(l, r)});
    assert Unaffected(s, s1, k);
    ClearedIsQuiet(s1, l, r, k);
    LeftIsQuiet(s1, l, r, k);
    hide Unaffected, SlotCleared, Left;
    Twice(s, s1, RemoveRun(s, l, r), k);
  }

  lemma JoinIsQuiet(s: State, l: Key, r: nat, admit: bool, k: Key)
    requires Shaped(s) && RoomExists(s, r)
    ensures Undisturbed(s, JoinRun(s, l, r, admit), k) && Quiet(s, JoinRun(s, l, r, admit), k)
  {
  }

  lemma CreateIsQuiet(s: State, l: Key, r: nat, succeed: bool, k: Key)
    requires Shaped(s)
    ensures Undisturbed(s, CreateRun(s, l, r, succeed), k) && Quiet(s, CreateRun(s, l, r, succeed), k)
  {
  }

  /** A room that is deleted is empty. */
  lemma DeleteIsQuiet(s: State, r: nat, k: Key)
    requires RoomsOk(s) && Delete(r) in s.work
    ensures Undisturbed(s, DeleteRun(s, r), k) && Quiet(s, DeleteRun(s, r), k)
  {
  }

  lemma PostIsQuiet(s: State, r: nat, k: Key)
    requires CanStep(s, PostDelete(r))
    ensures Undisturbed(s, Next(s, PostDelete(r)), k) && Quiet(s, Next(s, PostDelete(r)), k)
  {
  }

  lemma LoginIsQuiet(s: State, i: nat, p: nat, k: Key)
    requires Shaped(s) && i < |s.sessions|
    ensures Undisturbed(s, LoggedIn(s, i, p), k) && Quiet(s, LoggedIn(s, i, p), k)
  {
  }

  lemma JoinBegunIsQuiet(s: State, i: nat, r: nat, k: Key)
    requires Shaped(s) && i < |s.sessions| && RoomExists(s, r)
    ensures Undisturbed(s, JoinBegun(s, i, r), k) && Quiet(s, JoinBegun(s, i, r), k)
  {
  }

  lemma CreateBegunIsQuiet(s: State, i: nat, k: Key)
    requires Shaped(s) && i < |s.sessions|
    ensures Undisturbed(s, CreateBegun(s, i), k) && Quiet(s, CreateBegun(s, i), k)
  {
  }

  lemma SessionTaskIsQuiet(s: State, step: Step, k: Key)
    requires CanStep(s, step) && (step.AddSessionTask? || step.RunSessionTask? || step.RegisterIO?)
    ensures Undisturbed(s, Next(s, step), k) && Quiet(s, Next(s, step), k)
  {
  }

  lemma AcceptIsQuiet(s: State, i: nat, k: Key)
    requires Shaped(s) && i < |s.sessions| && s.sessions[i].life == NONE && i != k.slot
    ensures Undisturbed(s, Accepted(s, i), k) && Quiet(s, Accepted(s, i), k)
  {
  }

  lemma BeginningIsQuiet(s: State, step: Step, k: Key)
    requires CanStep(s, step) && !Own(s, step, k) && (step.BeginDisconnect? || step.CompleteIO?)
    ensures Undisturbed(s, Next(s, step), k) && Quiet(s, Next(s, step), k)
  {
  }

  lemma RequeueUnaffected(s: State, j: nat, k: Key)
    requires j < |s.lobby|
    ensures Unaffected(s, Requeued(s, j), k)
  {
    PoppedCount(s, j, k);
    SentCount(Popped(s, j).lobby, s.lobby[j], k);
    hide Queued;
  }

  // ---------- Every step ----------

  /** The steps in the course of `k`'s own disconnect. */
  predicate Own(s: State, step: Step, k: Key)
    requires CanStep(s, step)
  {
    match step
    case Accept(i) => i == k.slot
    case BeginDisconnect(i) => KeyAt(s, i) == k
    case CompleteIO(l) => l == k
    case RunLobby(j) => s.lobby[j] == Disconnect(k)
    case Leave(l, r) => l == k && IsIn(s, k, r)
    case RunRemove(l, r) => l == k && IsIn(s, k, r)
    case _ => false
  }

  lemma OthersUnaffected(s: State, step: Step, k: Key)
    requires Inv(s) && CanStep(s, step) && !Own(s, step, k)
    ensures Unaffected(s, Next(s, step), k)
  {
    match step {
      case Accept(i) => AcceptIsQuiet(s, i, k);
      case Login(i, p) => LoginIsQuiet(s, i, p, k);
      case BeginJoin(i, r) => JoinBegunIsQuiet(s, i, r, k);
      case BeginCreate(i) => CreateBegunIsQuiet(s, i, k);
      case RunLobby(j) =>
        assert s.lobby[j] in multiset(s.lobby);
        LobbyUnaffected(s, j, k);
      case RunJoin(l, r, admit) => JoinIsQuiet(s, l, r, admit, k);
      case RunCreate(l, r, succeed) => CreateIsQuiet(s, l, r, succeed, k);
      case RunDelete(r) => DeleteIsQuiet(s, r, k);
      case PostDelete(r) => PostIsQuiet(s, r, k);
      case Requeue(j) => RequeueUnaffected(s, j, k);
      case RegisterIO(_) => SessionTaskIsQuiet(s, step, k);
      case AddSessionTask(_) => SessionTaskIsQuiet(s, step, k);
      case RunSessionTask(_) => SessionTaskIsQuiet(s, step, k);
      case BeginDisconnect(_) => BeginningIsQuiet(s, step, k);
      case CompleteIO(_) => BeginningIsQuiet(s, step, k);
      case Leave(l, r) => LeftIsQuiet(s, l, r, k);
      case RunRemove(l, r) => RemoveIsQuiet(s, l, r, k);
    }
    hide Inv, Undisturbed, Quiet, Unaffected;
    if !step.RunLobby? && !step.Requeue? && !step.Leave? && !step.RunRemove? {
      QuietlyUnaffected(s, Next(s, step), k);
    }
  }

  lemma AcceptedServes(s: State, i: nat, k: Key)
    requires Shaped(s) && i < |s.sessions| && i == k.slot && (k.id >= s.nextId ==> Queued(s.lobby, k) == 0 && NoRemoval(s, k))
    ensures Served(Accepted(s, i), k)
  {
    SentCount(s.lobby, Add(Key(i, s.nextId)), k);
  }

  /** A disconnect begins where the session is worked on: in the lobby, or in its own room. */
  lemma BegunServes(s: State, i: nat, k: Key)
    requires Shaped(s) && Consumes(s, i) && KeyAt(s, i) == k && Served(s, k)
    ensures Served(DisconnectBegun(s, i), k)
  {
    SentCount(s.lobby, Disconnect(k), k);
    hide Queued;
  }

  lemma CompletedServes(s: State, k: Key)
    requires Shaped(s) && Served(s, k)
    ensures Served(Completed(s, k), k)
  {
    SentCount(s.lobby, Disconnect(k), k);
    hide Queued;
  }

  /** What is left of the account for a player who has lost the slot. */
  predicate Homeless(s: State, k: Key) {
    && Current(s, k) && s.sessions[k.slot].mode.ROOM?
    && var (x, n) := (s.sessions[k.slot], Queued(s.lobby, k));
       match x.life
       case DISCONNECTING => x.pending == 0
       case DISCONNECT_PENDING => n == 0 && NoRemoval(s, k) && x.pending > 0
       case _ => n == 0 && NoRemoval(s, k)
  }

  /** A player who is dying loses the slot: the disconnect is queued again. */
  lemma RoomDisconnectedServes(s: State, k: Key)
    requires Shaped(s) && Homeless(s, k)
    ensures Served(RoomDisconnected(s, k), k)
  {
    SentCount(s.lobby, Disconnect(k), k);
    hide Queued;
  }

  lemma SlotClearedServes(s: State, k: Key, r: nat)
    requires Shaped(s) && IsIn(s, k, r) && Homeless(s, k)
    ensures Served(SlotCleared(s, k, r), k)
  {
    var s1 := s.(rooms := s.rooms[r := Some(RoomWithout(s.rooms[r].value, k))]);
    var s2 := At(s1, k.slot, Lost(ToldOf(s.where[k.slot])));
    assert Homeless(s2, k);
    hide RoomDisconnected, Queued, Served, Homeless;
    RoomDisconnectedServes(s2, k);
  }

  /** The same when the lobby is told of the player's arrival. */
  lemma LeftServes(s: State, k: Key, r: nat)
    requires Shaped(s) && IsIn(s, k, r) && Homeless(s, k)
    ensures Served(Left(s, k, r), k)
  {
    SlotClearedServes(s, k, r);
    var s1 := SlotCleared(s, k, r);
    SentCount(s1.lobby, Enter(k, r), k);
    hide Queued, SlotCleared, Homeless;
  }

  lemma RemovalServes(s: State, step: Step, k: Key)
    requires Inv(s) && CanStep(s, step) && Own(s, step, k) && (step.Leave? || step.RunRemove?) && Served(s, k)
    ensures Served(Next(s, step), k)
  {
    KeyFacts(s, k);
    var s1 := s.(work := s.work - multiset{Remove(k, step.room)});
    hide Inv, SlotCleared, Left, Queued;
    assert Homeless(s, k) && Homeless(s1, k);
    if step.Leave? {
      LeftServes(s, k, step.room);
    } else {
      SlotClearedServes(s1, k, step.room);
      LeftServes(s1, k, step.room);
    }
  }

  /** The lobby's disconnect task hands the disconnect to the room that has the player, or carries
      it out. */
  lemma DisconnectServes(s: State, j: nat, k: Key)
    requires Inv(s) && j < |s.lobby| && s.lobby[j] == Disconnect(k) && Served(s, k)
    ensures var s' := LobbyRun(s, j);
            && Served(s', k)
            && (Current(s, k) ==>
                  if s.sessions[k.slot].mode.ROOM? then s' == Popped(s, j).(work := s.work + multiset{Remove(k, s.sessions[k.slot].mode.room)})
                  else s'.sessions[k.slot].life == NONE)
  {
    KeyFacts(s, k);
    PoppedCount(s, j, k);
    hide Inv, Queued;
  }

  lemma OwnServes(s: State, step: Step, k: Key)
    requires Inv(s) && CanStep(s, step) && Own(s, step, k) && Served(s, k)
    ensures Served(Next(s, step), k)
  {
    KeyFacts(s, k);
    match step {
      case Accept(i) => AcceptedServes(s, i, k);
      case BeginDisconnect(i) => BegunServes(s, i, k);
      case CompleteIO(_) => CompletedServes(s, k);
      case RunLobby(j) => DisconnectServes(s, j, k);
      case Leave(_, _) => RemovalServes(s, step, k);
      case RunRemove(_, _) => RemovalServes(s, step, k);
    }
  }

  // ---------- Over whole runs ----------

  ghost predicate AllServed(s: State) {
    Inv(s) && forall k :: Served(s, k)
  }

  lemma StepServes(s: State, step: Step)
    requires AllServed(s) && CanStep(s, step)
    ensures AllServed(Next(s, step))
  {
    StepKeeps(s, step);
    hide Inv, Next, CanStep;
    forall k
      ensures Served(Next(s, step), k)
    {
      assert Served(s, k);
      hide Served, Own;
      if Own(s, step, k) {
        OwnServes(s, step, k);
      } else {
        OthersUnaffected(s, step, k);
        UnaffectedServes(s, Next(s, step), k);
      }
    }
  }

  lemma {:induction false} RunServes(s: State, steps: seq<Step>)
    requires AllServed(s)
    ensures AllServed(Run(s, steps))
    decreases |steps|
  {
    hide AllServed, CanStep, Next;
    if steps != [] {
      if CanStep(s, steps[0]) {
        StepServes(s, steps[0]);
      }
      RunServes(if CanStep(s, steps[0]) then Next(s, steps[0]) else s, steps[1..]);
    }
  }

  lemma AtFirst(sessions: nat, rooms: nat)
    ensures AllServed(Begin(sessions, rooms))
  {
    BeginIsFine(sessions, rooms);
    hide Inv;
  }

  lemma ServedIsCarriedOn(s: State, k: Key)
    requires Inv(s) && Served(s, k) && Current(s, k)
    ensures var x := s.sessions[k.slot];
            && (x.life == DISCONNECTING <==> CarriedOn(s, k))
            && (x.life == DISCONNECTING ==> x.pending == 0)
            && (x.life == DISCONNECT_PENDING ==> x.pending > 0)
            && (x.life != ACTIVE && x.mode.ROOM? ==> IsIn(s, k, x.mode.room))
  {
    SlotFacts(s, k.slot);
    KeyFacts(s, k);
    hide Inv, Queued, Tasks, Carried;
    assert s.sessions[k.slot].life != NONE;
  }

  /** In every reachable state, tasks taken in any order and completions in one step: a session is to
      be freed if and only if a task in flight carries its disconnect on, and then it has no I/O
      pending; a session that still waits for its I/O has some. Nobody is stuck in between. */
  lemma DisconnectIsCarriedOn(sessions: nat, rooms: nat, steps: seq<Step>, k: Key)
    requires Current(Run(Begin(sessions, rooms), steps), k)
    ensures var s := Run(Begin(sessions, rooms), steps);
            var x := s.sessions[k.slot];
            && (x.life == DISCONNECTING <==> CarriedOn(s, k))
            && (x.life == DISCONNECTING ==> x.pending == 0)
            && (x.life == DISCONNECT_PENDING ==> x.pending > 0)
            && (x.life != ACTIVE && x.mode.ROOM? ==> IsIn(s, k, x.mode.room))
  {
    hide Run, Begin, Inv, CarriedOn;
    AtFirst(sessions, rooms);
    RunServes(Begin(sessions, rooms), steps);
    var s := Run(Begin(sessions, rooms), steps);
    assert Served(s, k);
    ServedIsCarriedOn(s, k);
  }

  // ---------- It can always be finished ----------

  /** How many steps are left. */
  function Distance(s: State, k: Key): nat
    requires Current(s, k)
  {
    var x := s.sessions[k.slot];
    if x.life == DISCONNECT_PENDING then 3 + x.pending
    else if !x.mode.ROOM? then 1
    else if Queued(s.lobby, k) > 0 then 3
    else 2
  }

  lemma Somewhere(lobby: seq<Task>, k: Key) returns (j: nat)
    requires Queued(lobby, k) > 0
    ensures j < |lobby| && lobby[j] == Disconnect(k)
  {
    assert Disconnect(k) in multiset(lobby);
    j :| 0 <= j < |lobby| && lobby[j] == Disconnect(k);
  }

  predicate Freed(s: State, k: Key) {
    k.slot < |s.sessions| && s.sessions[k.slot].life == NONE
  }

  /** One step on the way from `s`. */
  predicate BringsOn(s: State, s': State, k: Key)
    requires Current(s, k)
  {
    Freed(s', k) || (OnItsWay(s', k) && Distance(s', k) < Distance(s, k))
  }

  lemma CompletionBringsOn(s: State, k: Key)
    requires Inv(s) && Served(s, k) && OnItsWay(s, k) && s.sessions[k.slot].life == DISCONNECT_PENDING
    ensures BringsOn(s, Completed(s, k), k)
  {
    KeyFacts(s, k);
    SentCount(s.lobby, Disconnect(k), k);
    hide Inv, Queued;
  }

  lemma TaskBringsOn(s: State, j: nat, k: Key)
    requires Inv(s) && Served(s, k) && Dying(s, k) && j < |s.lobby| && s.lobby[j] == Disconnect(k)
    ensures BringsOn(s, LobbyRun(s, j), k)
  {
    KeyFacts(s, k);
    DisconnectServes(s, j, k);
    PoppedCount(s, j, k);
    hide Inv, Queued, LobbyRun;
  }

  lemma RemovalBringsOn(s: State, k: Key, r: nat)
    requires Inv(s) && Served(s, k) && Dying(s, k) && IsIn(s, k, r) && Queued(s.lobby, k) == 0
    ensures BringsOn(s, RemoveRun(s, k, r), k)
  {
    KeyFacts(s, k);
    hide Inv, Queued;
  }

  /** There is always a step that brings a disconnect on. */
  lemma NextOnItsWay(s: State, k: Key) returns (step: Step)
    requires AllServed(s) && OnItsWay(s, k)
    ensures CanStep(s, step) && BringsOn(s, Next(s, step), k)
  {
    hide Inv, Queued, BringsOn, LobbyRun, RemoveRun, Completed;
    KeyFacts(s, k);
    assert Served(s, k);
    if s.sessions[k.slot].life == DISCONNECT_PENDING {
      CompletionBringsOn(s, k);
      return CompleteIO(k);
    }
    if Queued(s.lobby, k) > 0 {
      var j := Somewhere(s.lobby, k);
      TaskBringsOn(s, j, k);
      return RunLobby(j);
    }
    RemovalBringsOn(s, k, s.sessions[k.slot].mode.room);
    return RunRemove(k, s.sessions[k.slot].mode.room);
  }

  lemma {:induction false} WayOut(s: State, k: Key) returns (steps: seq<Step>)
    requires AllServed(s) && OnItsWay(s, k)
    ensures Freed(Run(s, steps), k)
    decreases Distance(s, k)
  {
    var step := NextOnItsWay(s, k);
    StepServes(s, step);
    hide AllServed, CanStep, Next, Distance, OnItsWay, Freed;
    var s' := Next(s, step);
    var more: seq<Step> := [];
    if Freed(s', k) {
      assert Run(s', []) == s';
    } else {
      more := WayOut(s', k);
    }
    steps := [step] + more;
    assert steps[0] == step && steps[1..] == more;
  }

  /** From every reachable state, completions being one step, a disconnect that has begun can still
      be brought to its end: some steps lead to a state in which the slot is free. */
  lemma DisconnectCanFinish(sessions: nat, rooms: nat, steps: seq<Step>, k: Key)
    requires OnItsWay(Run(Begin(sessions, rooms), steps), k)
    ensures exists more :: Freed(Run(Run(Begin(sessions, rooms), steps), more), k)
  {
    AtFirst(sessions, rooms);
    hide Run, Begin, AllServed, OnItsWay, Freed;
    RunServes(Begin(sessions, rooms), steps);
    var more := WayOut(Run(Begin(sessions, rooms), steps), k);
    assert Freed(Run(Run(Begin(sessions, rooms), steps), more), k);
  }
}
