/** Input, automatic-down and garbage-line deadlines of one player. */
module Timing {

  const MOVE_TIMEOUT_MS: int := 50
  const ROTATE_TIMEOUT_MS: int := 100
  const DOWN_TIMEOUT_MS: int := 500
  const DROP_TIMEOUT_MS: int := 100
  const GARBAGE_LINE_TIMEOUT_MS: int := 10000

  /** The inputs a player can send, in the numeric order of the protocol. */
  datatype Input = RIGHT | LEFT | ROTATE | DOWN | DROP

  const INPUT_TYPE_COUNT: nat := 5

  function InputOf(i: int): Input
    requires 0 <= i < INPUT_TYPE_COUNT
  {
    if i == 0 then RIGHT else if i == 1 then LEFT else if i == 2 then ROTATE else if i == 3 then DOWN else DROP
  }

  /** The deadlines as a value. */
  datatype Timers = Timers(left: int, right: int, down: int, rotate: int, drop: int, nextDown: int, nextGarbage: int) {

    function Available(m: Input): int {
      match m
      case LEFT => left
      case RIGHT => right
      case DOWN => down
      case ROTATE => rotate
      case DROP => drop
    }

    predicate Allows(m: Input, now: int) {
      now >= Available(m)
    }

    /** Bars one input for 50 ms, or for 100 ms if it is a rotation or a drop; nothing else moves. */
    function Recorded(m: Input, now: int): (t: Timers)
      ensures t.Available(m) == now + if m == ROTATE || m == DROP then 100 else 50
      ensures forall n :: n != m ==> t.Available(n) == Available(n)
      ensures t.nextDown == nextDown && t.nextGarbage == nextGarbage
    {
      match m
      case LEFT => this.(left := now + MOVE_TIMEOUT_MS)
      case RIGHT => this.(right := now + MOVE_TIMEOUT_MS)
      case DOWN => this.(down := now + MOVE_TIMEOUT_MS)
      case ROTATE => this.(rotate := now + ROTATE_TIMEOUT_MS)
      case DROP => this.(drop := now + DROP_TIMEOUT_MS)
    }

    function DownRestarted(now: int): (t: Timers)
      ensures t.nextDown == now + 500 && t.nextGarbage == nextGarbage && forall n :: t.Available(n) == Available(n)
    {
      this.(nextDown := now + DOWN_TIMEOUT_MS)
    }

    function GarbageRestarted(now: int): (t: Timers)
      ensures t.nextGarbage == now + 10000 && t.nextDown == nextDown && forall n :: t.Available(n) == Available(n)
    {
      this.(nextGarbage := now + GARBAGE_LINE_TIMEOUT_MS)
    }
  }

  /** Every input is allowed from now on; the first descent comes after half a second, the first
      garbage line after ten. */
  function FreshTimers(now: int): (t: Timers)
    ensures forall m, later :: t.Allows(m, later) <==> later >= now
    ensures t.nextDown == now + 500 && t.nextGarbage == now + 10000
  {
    Timers(now, now, now, now, now, now + DOWN_TIMEOUT_MS, now + GARBAGE_LINE_TIMEOUT_MS)
  }

  class TetrisTimers {
    var leftAvailable: int
    var rightAvailable: int
    var downAvailable: int
    var rotateAvailable: int
    var dropAvailable: int
    var nextAutoDown: int
    var nextGarbageLine: int

    function View(): Timers
      reads this
    {
      Timers(leftAvailable, rightAvailable, downAvailable, rotateAvailable, dropAvailable, nextAutoDown, nextGarbageLine)
    }

    constructor (now: int)
      ensures View() == FreshTimers(now)
    {
      leftAvailable, rightAvailable, downAvailable, rotateAvailable, dropAvailable := now, now, now, now, now;
      nextAutoDown := now + DOWN_TIMEOUT_MS;
      nextGarbageLine := now + GARBAGE_LINE_TIMEOUT_MS;
    }

    method Reset(now: int)
      modifies this
      ensures View() == FreshTimers(now)
    {
      leftAvailable, rightAvailable, downAvailable, rotateAvailable, dropAvailable := now, now, now, now, now;
      nextAutoDown := now + DOWN_TIMEOUT_MS;
      nextGarbageLine := now + GARBAGE_LINE_TIMEOUT_MS;
    }

    predicate IsInputAllowed(m: Input, now: int)
      reads this
    {
      View().Allows(m, now)
    }

    method RecordInput(m: Input, now: int)
      modifies this
      ensures View() == old(View()).Recorded(m, now)
    {
      match m {
        case LEFT => leftAvailable := now + MOVE_TIMEOUT_MS;
        case RIGHT => rightAvailable := now + MOVE_TIMEOUT_MS;
        case DOWN => downAvailable := now + MOVE_TIMEOUT_MS;
        case ROTATE => rotateAvailable := now + ROTATE_TIMEOUT_MS;
        case DROP => dropAvailable := now + DROP_TIMEOUT_MS;
      }
    }

    predicate IsAutoDownDue(now: int)
      reads this
    {
      now >= nextAutoDown
    }

    method RestartAutoDown(now: int)
      modifies this
      ensures View() == old(View()).DownRestarted(now)
    {
      nextAutoDown := now + DOWN_TIMEOUT_MS;
    }

    predicate IsGarbageLineDue(now: int)
      reads this
    {
      now >= nextGarbageLine
    }

    method RestartGarbageLine(now: int)
      modifies this
      ensures View() == old(View()).GarbageRestarted(now)
    {
      nextGarbageLine := now + GARBAGE_LINE_TIMEOUT_MS;
    }
  }
}
