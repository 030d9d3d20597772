/** The counted task queue: a lock-free queue with a separate counter that consumers claim in
    one exchange. First the queue under any number of threads, then as an object, then the
    two loops that consume a session's tasks. */
module TaskQueue {

  // ---------- Any number of threads ----------

  /** Where a thread is: idle, between the increment and the push of an enqueue, or holding
      claims it has not used yet. */
  datatype Thread<T> = Idle | Adding(task: T) | Holding(claims: nat)

  /** `pushed` and `taken` record everything that ever went in and came out. */
  datatype Queue<T> = Queue(count: nat, items: seq<T>, threads: seq<Thread<T>>, pushed: seq<T>, taken: seq<T>)

  datatype Step<T> =
    | BeginEnqueue(task: T)
    | FinishEnqueue
    | Claim
    | Restore(returned: nat)
    | Dequeue

  /** Whether thread `t` can take the step. A dequeue waits until there is something to pop. */
  predicate CanStep<T>(q: Queue<T>, t: nat, step: Step<T>) {
    && t < |q.threads|
    && match step
       case BeginEnqueue(_) => q.threads[t].Idle?
       case FinishEnqueue => q.threads[t].Adding?
       case Claim => q.threads[t].Idle?
       case Restore(returned) => q.threads[t].Holding? && returned <= q.threads[t].claims
       case Dequeue => q.threads[t].Holding? && q.threads[t].claims > 0 && q.items != []
  }

  function Held<T>(claims: nat): Thread<T> {
    if claims == 0 then Idle else Holding(claims)
  }

  function Next<T>(q: Queue<T>, t: nat, step: Step<T>): Queue<T>
    requires CanStep(q, t, step)
  {
    match step
    case BeginEnqueue(task) => q.(count := q.count + 1, threads := q.threads[t := Adding(task)])
    case FinishEnqueue =>
      var task := q.threads[t].task;
      q.(items := q.items + [task], pushed := q.pushed + [task], threads := q.threads[t := Idle])
    case Claim => q.(count := 0, threads := q.threads[t := Held(q.count)])
    case Restore(returned) => q.(count := q.count + returned, threads := q.threads[t := Held(q.threads[t].claims - returned)])
    case Dequeue =>
      q.(items := q.items[1..], taken := q.taken + [q.items[0]], threads := q.threads[t := Held(q.threads[t].claims - 1)])
  }

  function Run<T>(q: Queue<T>, steps: seq<(nat, Step<T>)>): (r: Queue<T>)
    decreases |steps|
  {
    if steps == [] then q
    else if CanStep(q, steps[0].0, steps[0].1) then Run(Next(q, steps[0].0, steps[0].1), steps[1..])
    else Run(q, steps[1..])
  }

  function Claims<T>(threads: seq<Thread<T>>): nat {
    if threads == [] then 0
    else Claims(threads[..|threads| - 1]) + match threads[|threads| - 1] case Holding(n) => n case _ => 0
  }

  function Pushes<T>(threads: seq<Thread<T>>): nat {
    if threads == [] then 0
    else Pushes(threads[..|threads| - 1]) + if threads[|threads| - 1].Adding? then 1 else 0
  }

  function ClaimsOf<T>(t: Thread<T>): nat {
    match t case Holding(n) => n case _ => 0
  }

  lemma {:induction false} ThreadUpdate<T>(threads: seq<Thread<T>>, t: nat, thread: Thread<T>)
    requires t < |threads|
    ensures Claims(threads[t := thread]) == Claims(threads) - ClaimsOf(threads[t]) + ClaimsOf(thread)
    ensures Pushes(threads[t := thread]) ==
              Pushes(threads) - (if threads[t].Adding? then 1 else 0) + (if thread.Adding? then 1 else 0)
  {
    var n := |threads| - 1;
    var changed := threads[t := thread];
    if t == n {
      assert changed[..n] == threads[..n];
    } else {
      assert changed[..n] == threads[..n][t := thread];
      ThreadUpdate(threads[..n], t, thread);
    }
  }

  /** Every claimed or counted task is in the queue or about to be, and what was pushed is
      what was taken followed by what is still there. */
  ghost predicate Counted<T>(q: Queue<T>) {
    && q.count + Claims(q.threads) == |q.items| + Pushes(q.threads)
    && q.pushed == q.taken + q.items
  }

  lemma StepKeepsCount<T>(q: Queue<T>, t: nat, step: Step<T>)
    requires Counted(q) && CanStep(q, t, step)
    ensures Counted(Next(q, t, step))
  {
    hide Claims, Pushes;
    ThreadUpdate(q.threads, t, Next(q, t, step).threads[t]);
    assert q.threads[t := Next(q, t, step).threads[t]] == Next(q, t, step).threads;
  }

  /** Under any interleaving of producers and claimants the counts stay exact, and every task
      is dequeued at most once, in the order of the pushes. */
  lemma {:induction false} RunKeepsCount<T>(q: Queue<T>, steps: seq<(nat, Step<T>)>)
    requires Counted(q)
    ensures Counted(Run(q, steps))
    decreases |steps|
  {
    hide Counted;
    if steps != [] {
      if CanStep(q, steps[0].0, steps[0].1) {
        StepKeepsCount(q, steps[0].0, steps[0].1);
        RunKeepsCount(Next(q, steps[0].0, steps[0].1), steps[1..]);
      } else {
        RunKeepsCount(q, steps[1..]);
      }
    }
  }

  lemma {:induction false} ClaimsAtLeast<T>(threads: seq<Thread<T>>, t: nat)
    requires t < |threads|
    ensures Claims(threads) >= ClaimsOf(threads[t])
  {
    ThreadUpdate(threads, t, Idle);
  }

  lemma {:induction false} SomeonePushes<T>(threads: seq<Thread<T>>) returns (t: nat)
    requires Pushes(threads) > 0
    ensures t < |threads| && threads[t].Adding?
  {
    if threads[|threads| - 1].Adding? {
      t := |threads| - 1;
    } else {
      t := SomeonePushes(threads[..|threads| - 1]);
    }
  }

  /** A dequeue backed by a claim never waits in vain: if the queue is empty, some thread is
      in the middle of an enqueue, and when that one finishes the dequeue can go on. */
  lemma ClaimedItemArrives<T>(q: Queue<T>, t: nat) returns (producer: nat)
    requires Counted(q) && t < |q.threads| && ClaimsOf(q.threads[t]) > 0 && q.items == []
    ensures CanStep(q, producer, FinishEnqueue)
    ensures CanStep(Next(q, producer, FinishEnqueue), t, Dequeue)
  {
    ClaimsAtLeast(q.threads, t);
    producer := SomeonePushes(q.threads);
  }

  /** What is claimed can be dequeued to the end. */
  lemma {:induction false} ClaimedCanBeTaken<T>(q: Queue<T>, t: nat, n: nat) returns (steps: seq<(nat, Step<T>)>)
    requires t < |q.threads| && q.threads[t] == Held<T>(n) && n <= |q.items|
    ensures var q' := Run(q, steps);
            q' == q.(items := q.items[n..], taken := q.taken + q.items[..n], threads := q.threads[t := Idle])
    decreases n
  {
    if n == 0 {
      steps := [];
      assert q.taken + [] == q.taken && q.threads[t := Idle] == q.threads;
    } else {
      var q1 := Next(q, t, Dequeue);
      var more := ClaimedCanBeTaken(q1, t, n - 1);
      steps := [(t, Dequeue)] + more;
      assert steps[1..] == more;
      assert q.taken + [q.items[0]] + q.items[1..][..n - 1] == q.taken + q.items[..n];
      assert q.items[1..][n - 1..] == q.items[n..];
      assert q.threads[t := Held<T>(n - 1)][t := Idle] == q.threads[t := Idle];
    }
  }

  lemma {:induction false} NobodyHolds<T>(threads: seq<Thread<T>>)
    requires forall t :: 0 <= t < |threads| ==> threads[t].Idle?
    ensures Claims(threads) == 0 && Pushes(threads) == 0
  {
    if threads != [] {
      NobodyHolds(threads[..|threads| - 1]);
    }
  }

  /** One claim takes everything that is counted: from a state in which nobody is in the middle of
      anything a consumer empties the queue, in the order of the pushes. */
  lemma QueueCanBeEmptied<T>(q: Queue<T>, t: nat) returns (steps: seq<(nat, Step<T>)>)
    requires Counted(q) && t < |q.threads| && forall u :: 0 <= u < |q.threads| ==> q.threads[u].Idle?
    ensures var q' := Run(q, steps);
            q'.items == [] && q'.taken == q.pushed && q'.count == 0 && q'.threads == q.threads
  {
    NobodyHolds(q.threads);
    var q1 := Next(q, t, Claim);
    assert q1.threads[t] == Held<T>(|q.items|);
    var more := ClaimedCanBeTaken(q1, t, |q.items|);
    steps := [(t, Claim)] + more;
    assert steps[1..] == more;
    assert q.items[..|q.items|] == q.items && q.items[|q.items|..] == [];
    assert q.threads[t := Held<T>(|q.items|)][t := Idle] == q.threads;
  }

  // ---------- The queue as an object ----------

  class ConcurrentTaskQueue<T> {
    var taskCount: nat
    var tasks: seq<T>

    constructor ()
      ensures taskCount == 0 && tasks == []
    {
      taskCount := 0;
      tasks := [];
    }

    method Enqueue(task: T)
      modifies this
      ensures taskCount == old(taskCount) + 1 && tasks == old(tasks) + [task]
    {
      taskCount := taskCount + 1;
      tasks := tasks + [task];
    }

    method ClaimTaskCount() returns (n: nat)
      modifies this`taskCount
      ensures n == old(taskCount) && taskCount == 0
    {
      n := taskCount;
      taskCount := 0;
    }

    method RestoreClaimedTaskCount(n: nat)
      modifies this`taskCount
      ensures taskCount == old(taskCount) + n
    {
      if n == 0 {
        return;
      }
      taskCount := taskCount + n;
    }

    /** The source spins until there is something to pop; the claim guarantees there is. */
    method Dequeue() returns (task: T)
      requires tasks != []
      modifies this`tasks
      ensures task == old(tasks)[0] && tasks == old(tasks)[1..]
    {
      task := tasks[0];
      tasks := tasks[1..];
    }
  }

  // ---------- One pass over a session's tasks ----------

  /** What handling a task tells the loop: go on, give the unused claims back (the session is
      leaving this consumer), or throw the rest away (a disconnect has begun). */
  datatype Outcome = Continue | Leave | Discard

  /** The number of tasks handled by a pass over `n` claimed tasks. */
  function Handles(outcomes: seq<Outcome>, n: nat): (k: nat)
    requires |outcomes| >= n
    ensures k <= n
  {
    if n == 0 then 0
    else if outcomes[0].Continue? then 1 + Handles(outcomes[1..], n - 1)
    else 1
  }

  /** The same loop in the lobby and in a room. `outcomes` says how each handled task ends.
      Handled tasks, discarded tasks and the tasks left in the queue are, in this order, the
      tasks that were there; the count is exact again; and nothing is thrown away unless a
      handled task said so, in which case nothing is left. */
  method ProcessTasks<T>(queue: ConcurrentTaskQueue<T>, outcomes: seq<Outcome>) returns (handled: seq<T>, discarded: seq<T>)
    requires queue.taskCount == |queue.tasks| <= |outcomes|
    modifies queue
    ensures handled + discarded + queue.tasks == old(queue.tasks)
    ensures queue.taskCount == |queue.tasks|
    ensures |handled| == Handles(outcomes, old(queue.taskCount))
    ensures forall i :: 0 <= i < |handled| - 1 ==> outcomes[i].Continue?
    ensures if handled != [] && outcomes[|handled| - 1].Discard? then queue.tasks == [] else discarded == []
    ensures handled == old(queue.tasks) <== forall i :: 0 <= i < |outcomes| ==> outcomes[i].Continue?
  {
    var n := queue.ClaimTaskCount();
    handled, discarded := [], [];
    var i: nat := 0;
    while i < n
      invariant i <= n == |old(queue.tasks)| && queue.taskCount == 0
      invariant handled == old(queue.tasks)[..i] && queue.tasks == old(queue.tasks)[i..]
      invariant i + Handles(outcomes[i..], n - i) == Handles(outcomes, n)
      invariant forall j :: 0 <= j < i ==> outcomes[j].Continue?
    {
      var task := queue.Dequeue();
      handled := handled + [task];
      assert outcomes[i..][1..] == outcomes[i + 1..];
      if outcomes[i].Discard? {
        discarded := DiscardRest(queue, n - i - 1);
        return;
      }
      if outcomes[i].Leave? {
        queue.RestoreClaimedTaskCount(n - i - 1);
        return;
      }
      i := i + 1;
    }
  }

  /** Drops the claimed tasks, then everything that has been added since. */
  method DiscardRest<T>(queue: ConcurrentTaskQueue<T>, claimed: nat) returns (discarded: seq<T>)
    requires claimed + queue.taskCount == |queue.tasks|
    modifies queue
    ensures discarded == old(queue.tasks) && queue.tasks == [] && queue.taskCount == 0
  {
    discarded := DequeueMany(queue, claimed);
    var more := queue.ClaimTaskCount();
    var rest := DequeueMany(queue, more);
    assert old(queue.tasks) == old(queue.tasks)[..claimed] + old(queue.tasks)[claimed..];
    discarded := discarded + rest;
  }

  method DequeueMany<T>(queue: ConcurrentTaskQueue<T>, n: nat) returns (taken: seq<T>)
    requires n <= |queue.tasks|
    modifies queue`tasks
    ensures taken == old(queue.tasks)[..n] && queue.tasks == old(queue.tasks)[n..]
  {
    taken := [];
    for i := 0 to n
      invariant taken == old(queue.tasks)[..i] && queue.tasks == old(queue.tasks)[i..]
    {
      var task := queue.Dequeue();
      taken := taken + [task];
    }
  }

  // ---------- A session's tasks over its whole life ----------

  /** What the holder of the session's processing lock is doing. `Checked` has seen the session
      active after taking the lock; `Running` has unused claims; `Discarding` is throwing
      claimed tasks away, and then, `last`, the ones that came after them. */
  datatype Phase = Free | Locked | Checked | Running(left: nat) | Discarding(left: nat, last: bool)

  /** One session: its life, its queue, and everything that was accepted, handled and
      discarded. Accepting is one step here; the two halves of an enqueue are `Queue`'s. */
  datatype Session<T> = Session(active: bool, count: nat, items: seq<T>, phase: Phase,
                                accepted: seq<T>, handled: seq<T>, discarded: seq<T>)

  /** `Begin`: some disconnect begins. `Lock`, `Check`, `Take` and `Handle` are the consumer
      loop of the lobby or of a room; a task handled with `Discard` was a disconnect, after
      which the session is no longer active, whoever began it. `Sweep` is the discard at the
      end of a disconnect, under the same lock. */
  datatype Event<T> =
    | Accept(task: T)
    | Begin
    | Lock
    | Check
    | Take
    | Handle(outcome: Outcome)
    | DropOne
    | DropMore
    | Sweep
    | Unlock

  predicate CanHappen<T>(s: Session<T>, e: Event<T>) {
    match e
    case Accept(_) => s.active
    case Begin => s.active
    case Lock => s.phase.Free?
    case Check => s.phase.Locked? && s.active
    case Take => s.phase.Checked?
    case Handle(outcome) => s.phase.Running? && s.phase.left > 0 && s.items != []
    case DropOne => s.phase.Discarding? && s.phase.left > 0 && s.items != []
    case DropMore => s.phase.Discarding? && s.phase.left == 0 && !s.phase.last
    case Sweep => s.phase.Locked? && !s.active
    case Unlock =>
      s.phase.Locked? || s.phase.Checked? || (s.phase.Running? && s.phase.left == 0) ||
      (s.phase.Discarding? && s.phase.left == 0 && s.phase.last)
  }

  function After<T>(s: Session<T>, e: Event<T>): Session<T>
    requires CanHappen(s, e)
  {
    match e
    case Accept(task) => s.(count := s.count + 1, items := s.items + [task], accepted := s.accepted + [task])
    case Begin => s.(active := false)
    case Lock => s.(phase := Locked)
    case Check => s.(phase := Checked)
    case Take => s.(count := 0, phase := Running(s.count))
    case Handle(outcome) =>
      var t := s.(items := s.items[1..], handled := s.handled + [s.items[0]]);
      (match outcome
       case Continue => t.(phase := Running(s.phase.left - 1))
       case Leave => t.(count := s.count + (s.phase.left - 1), phase := Running(0))
       case Discard => t.(active := false, phase := Discarding(s.phase.left - 1, false)))
    case DropOne =>
      s.(items := s.items[1..], discarded := s.discarded + [s.items[0]], phase := Discarding(s.phase.left - 1, s.phase.last))
    case DropMore => s.(count := 0, phase := Discarding(s.count, true))
    case Sweep => s.(count := 0, phase := Discarding(s.count, true))
    case Unlock => s.(phase := Free)
  }

  function Left(p: Phase): nat {
    match p
    case Running(n) => n
    case Discarding(n, _) => n
    case _ => 0
  }

  /** Accepted tasks are the handled, the discarded and the waiting ones, in this order; the
      count and the open claims cover exactly the waiting ones; nothing is discarded while the
      session is active, nor handled once something has been discarded. */
  ghost predicate Conserved<T>(s: Session<T>) {
    && s.accepted == s.handled + s.discarded + s.items
    && s.count + Left(s.phase) == |s.items|
    && (s.discarded != [] || s.phase.Discarding? ==> !s.active)
    && (s.phase.Checked? || s.phase.Running? ==> s.discarded == [])
  }

  lemma EventConserves<T>(s: Session<T>, e: Event<T>)
    requires Conserved(s) && CanHappen(s, e)
    ensures Conserved(After(s, e))
    ensures s.handled <= After(s, e).handled && s.discarded <= After(s, e).discarded
  {
  }

  function Life<T>(s: Session<T>, events: seq<Event<T>>): Session<T>
    decreases |events|
  {
    if events == [] then s
    else Life(if CanHappen(s, events[0]) then After(s, events[0]) else s, events[1..])
  }

  function NewSession<T>(): Session<T> {
    Session(true, 0, [], Free, [], [], [])
  }

  lemma {:induction false} LifeConserves<T>(s: Session<T>, events: seq<Event<T>>)
    requires Conserved(s)
    ensures Conserved(Life(s, events))
    decreases |events|
  {
    hide Conserved, After;
    if events != [] {
      if CanHappen(s, events[0]) {
        EventConserves(s, events[0]);
        LifeConserves(After(s, events[0]), events[1..]);
      } else {
        LifeConserves(s, events[1..]);
      }
    }
  }

  /** Over a session's whole life, across any alternation of consumers: tasks are handled
      exactly once and in the order they were accepted, all of them except those still waiting
      and those discarded, and there are discarded ones only after a disconnect has begun. */
  lemma TasksHandledInOrder<T>(events: seq<Event<T>>)
    ensures var s := Life(NewSession<T>(), events);
            && s.handled <= s.accepted
            && s.handled + s.discarded + s.items == s.accepted
            && (s.active ==> s.discarded == [])
            && (s.items == [] && s.active ==> s.handled == s.accepted)
  {
    hide Life;
    LifeConserves(NewSession<T>(), events);
    var s := Life(NewSession<T>(), events);
    assert s.accepted == s.handled + (s.discarded + s.items);
    if s.items == [] && s.active {
      assert s.accepted == s.handled + [] + [];
    }
  }
}
