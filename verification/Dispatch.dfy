/** The queue through which other threads hand tasks to the proxy's background thread. Every method is
    one atomic step of one thread, and the threads are interleaved in any order. */
module Dispatch {
  import opened Basics

  /** The address of a task; 0 is the null pointer. */
  type Task = nat

  type Thread = nat

  const NULL: Task := 0

  /** How far a dispatching thread is: its task is set up; it holds the mutex; it has made it the
      head and owes a byte to the pipe; it is linked but not yet the tail; all is done but to
      release the mutex. */
  datatype Place =
    | Ready(task: Task) | Locked(task: Task) | Signalling(task: Task) | Linked(task: Task) | Finished(task: Task)

  /** How far the background thread is: it waits for the pipe; it has read from the pipe; it is emptying
      the queue. */
  datatype Worker = Polling | Woken | Draining

  datatype Owner = Nobody | Dispatcher(thread: Thread) | Background

  /** The links spell out the queue. */
  ghost predicate Spelled(next: map<Task, Task>, head: Task, q: seq<Task>) {
    && head == (if q == [] then NULL else q[0])
    && (forall i :: 0 <= i < |q| ==> q[i] != NULL)
    && (forall i, j :: 0 <= i < j < |q| ==> q[i] != q[j])
    && (forall i {:trigger next[q[i]]} {:trigger q[i] in next} :: 0 <= i < |q| ==>
          q[i] in next && next[q[i]] == if i == |q| - 1 then NULL else q[i + 1])
  }

  /** Where a dispatching thread's task is. */
  ghost predicate PlaceOk(p: Place, owns: bool, next: map<Task, Task>, q: seq<Task>) {
    && p.task != NULL && (owns <==> !p.Ready?)
    && if p.Ready? || p.Locked? then p.task !in q && p.task in next && next[p.task] == NULL
       else q != [] && p.task == q[|q| - 1]
  }

  ghost predicate PlacesOk(places: map<Thread, Place>, owner: Owner, next: map<Task, Task>, q: seq<Task>) {
    && (owner.Dispatcher? ==> owner.thread in places)
    && (forall d :: d in places ==> PlaceOk(places[d], owner == Dispatcher(d), next, q))
    && (forall d, e :: d in places && e in places && d != e ==> places[d].task != places[e].task)
  }

  /** Every task whose memory is in use is in the queue or in the hands of a thread. */
  ghost predicate Held(next: map<Task, Task>, q: seq<Task>, places: map<Thread, Place>) {
    forall t :: t in next ==> t in q || exists d :: d in places && places[d].task == t
  }

  lemma HeldMoved(next: map<Task, Task>, next': map<Task, Task>, q: seq<Task>, q': seq<Task>,
                  places: map<Thread, Place>, d: Thread, p: Place)
    requires Held(next, q, places) && q <= q' && (d in places ==> places[d].task == p.task)
    requires next'.Keys <= next.Keys + {p.task}
    ensures Held(next', q', places[d := p])
  {
    var places' := places[d := p];
    forall t | t in next'
      ensures t in q' || exists e :: e in places' && places'[e].task == t
    {
      if t == p.task {
        assert d in places' && places'[d].task == t;
      } else if t !in q {
        var e :| e in places && places[e].task == t;
        assert e in places' && places'[e].task == t;
      }
    }
  }

  lemma HeldInQueue(next: map<Task, Task>, q: seq<Task>, places: map<Thread, Place>, d: Thread)
    requires Held(next, q, places) && d in places && places[d].task in q
    ensures Held(next, q, places - {d})
  {
    var places' := places - {d};
    forall t | t in next && t !in q
      ensures exists e :: e in places' && places'[e].task == t
    {
      var e :| e in places && places[e].task == t;
      assert e in places';
    }
  }

  lemma HeldBehindHead(next: map<Task, Task>, q: seq<Task>, places: map<Thread, Place>)
    requires Held(next, q, places) && q != []
    ensures Held(next - {q[0]}, q[1..], places)
  {
  }

  /** The thread inside the critical section has the given place. */
  ghost function Inside(places: map<Thread, Place>, owner: Owner): Place {
    if owner.Dispatcher? && owner.thread in places then places[owner.thread] else Ready(NULL)
  }

  /** Wake-ups that have been sent, or are about to be, and have not been acted upon. */
  ghost function Wakeups(pipe: nat, worker: Worker, inside: Place): nat {
    pipe + (if worker.Woken? then 1 else 0) + (if inside.Signalling? then 1 else 0)
  }

  lemma LinkedBehind(next: map<Task, Task>, head: Task, q: seq<Task>, task: Task)
    requires Spelled(next, head, q) && task != NULL && task !in q && task in next && next[task] == NULL
    ensures Spelled(if q == [] then next else next[q[|q| - 1] := task], if q == [] then task else head, q + [task])
  {
  }

  lemma Unlinked(next: map<Task, Task>, head: Task, q: seq<Task>)
    requires Spelled(next, head, q) && q != []
    ensures head in next && Spelled(next - {head}, next[head], q[1..])
  {
  }

  /** The queue, its threads and what has been run, as one value. */
  datatype Machine = Machine(queue: seq<Task>, owner: Owner, pipe: nat, places: map<Thread, Place>, worker: Worker,
                             ran: seq<Task>, dispatched: seq<Task>)

  datatype Step =
    | Start(thread: Thread, task: Task) | Lock(thread: Thread) | Append(thread: Thread) | Signal(thread: Thread)
    | SetTail(thread: Thread) | Unlock(thread: Thread)
    | Read | LockQueue | RunNext | UnlockQueue

  /** Whether the thread can take the step. A task is only handed over while it is in nobody's hands. */
  predicate Enabled(m: Machine, s: Step) {
    match s
    case Start(d, task) =>
      d !in m.places && task != NULL && task !in m.queue && forall e :: e in m.places ==> m.places[e].task != task
    case Lock(d) => d in m.places && m.places[d].Ready? && m.owner == Nobody
    case Append(d) => d in m.places && m.places[d].Locked?
    case Signal(d) => d in m.places && m.places[d].Signalling?
    case SetTail(d) => d in m.places && m.places[d].Linked?
    case Unlock(d) => d in m.places && m.places[d].Finished?
    case Read => m.worker.Polling? && m.pipe > 0
    case LockQueue => m.worker.Woken? && m.owner == Nobody
    case RunNext => m.worker.Draining? && m.queue != []
    case UnlockQueue => m.worker.Draining? && m.queue == []
  }

  /** What a step does, if the thread can take it. */
  function StepOf(m: Machine, s: Step): Machine {
    if !Enabled(m, s) then m
    else
      match s
      case Start(d, task) => m.(places := m.places[d := Ready(task)])
      case Lock(d) => m.(owner := Dispatcher(d), places := m.places[d := Locked(m.places[d].task)])
      case Append(d) =>
        var task := m.places[d].task;
        m.(queue := m.queue + [task], dispatched := m.dispatched + [task],
           places := m.places[d := if m.queue == [] then Signalling(task) else Linked(task)])
      case Signal(d) => m.(pipe := m.pipe + 1, places := m.places[d := Linked(m.places[d].task)])
      case SetTail(d) => m.(places := m.places[d := Finished(m.places[d].task)])
      case Unlock(d) => m.(owner := Nobody, places := m.places - {d})
      case Read => m.(pipe := 0, worker := Woken)
      case LockQueue => m.(owner := Background, worker := Draining)
      case RunNext => m.(ran := m.ran + [m.queue[0]], queue := m.queue[1..])
      case UnlockQueue => m.(owner := Nobody, worker := Polling)
  }

  /** The machine after a sequence of steps. */
  function AfterSteps(m: Machine, steps: seq<Step>): Machine {
    if steps == [] then m else StepOf(AfterSteps(m, steps[..|steps| - 1]), steps[|steps| - 1])
  }

  const IDLE := Machine([], Nobody, 0, map[], Polling, [], [])

  class Async {
    var head: Task
    var tail: Task
    var next: map<Task, Task>
    var owner: Owner
    var pipe: nat
    var places: map<Thread, Place>
    var worker: Worker
    /** The tasks that have been run, in order. */
    var ran: seq<Task>

    ghost var queue: seq<Task>
    /** The tasks in the order in which they entered the queue. */
    ghost var dispatched: seq<Task>

    ghost predicate Inv()
      reads this
    {
      var inside := Inside(places, owner);
      && Spelled(next, head, queue) && PlacesOk(places, owner, next, queue) && Held(next, queue, places)
      && (queue != [] && !inside.Signalling? && !inside.Linked? ==> tail == queue[|queue| - 1])
      && dispatched == ran + queue
      && (owner.Background? <==> worker.Draining?)
      && Wakeups(pipe, worker, inside) == if worker.Draining? || queue == [] then 0 else 1
    }

    ghost function Value(): Machine
      reads this
    {
      Machine(queue, owner, pipe, places, worker, ran, dispatched)
    }

    constructor ()
      ensures Inv() && Value() == IDLE
    {
      head, tail, next, owner, pipe, places, worker, ran := NULL, NULL, map[], Nobody, 0, map[], Polling, [];
      queue, dispatched := [], [];
    }

    // ---------------------------------------------------------------- dispatching threads

    /** Sets up a task that is in nobody else's hands. */
    method Start(d: Thread, task: Task)
      requires Inv() && d !in places && task != NULL && task !in queue
      requires forall e :: e in places ==> places[e].task != task
      modifies `next, `places
      ensures Inv() && places == old(places)[d := Ready(task)]
    {
      hide Held;
      HeldMoved(next, next[task := NULL], queue, queue, places, d, Ready(task));
      next := next[task := NULL];
      places := places[d := Ready(task)];
    }

    method Lock(d: Thread)
      requires Inv() && d in places && places[d].Ready? && owner == Nobody
      modifies `owner, `places
      ensures Inv() && owner == Dispatcher(d) && places == old(places)[d := Locked(old(places)[d].task)]
    {
      hide Held;
      HeldMoved(next, next, queue, queue, places, d, Locked(places[d].task));
      owner := Dispatcher(d);
      places := places[d := Locked(places[d].task)];
    }

    /** Puts the thread's task into the queue: as its head, or behind the tail. */
    method Append(d: Thread)
      requires Inv() && d in places && places[d].Locked?
      modifies `head, `next, `places, `queue, `dispatched
      ensures Inv() && queue == old(queue) + [old(places)[d].task]
      ensures dispatched == old(dispatched) + [old(places)[d].task]
      ensures var task := old(places)[d].task;
        places == old(places)[d := if old(queue) == [] then Signalling(task) else Linked(task)]
    {
      hide Held;
      var task := places[d].task;
      LinkedBehind(next, head, queue, task);
      TaskMoves(d, task);
      HeldMoved(next, next, queue, queue + [task], places, d, Signalling(task));
      HeldMoved(next, if queue == [] then next else next[tail := task], queue, queue + [task], places, d, Linked(task));
      if head == NULL {
        head := task;
        places := places[d := Signalling(task)];
      } else {
        next := next[tail := task];
        places := places[d := Linked(task)];
      }
      queue := queue + [task];
      dispatched := dispatched + [task];
    }

    lemma TaskMoves(d: Thread, task: Task)
      requires Inv() && d in places && places[d] == Locked(task)
      ensures queue != [] ==> tail == queue[|queue| - 1] && tail != task
      ensures PlacesOk(places[d := Signalling(task)], owner, next, queue + [task])
      ensures queue != [] ==> PlacesOk(places[d := Linked(task)], owner, next[tail := task], queue + [task])
      ensures Inside(places, owner) == Locked(task)
    {
    }

    /** Wakes the background thread up. */
    method Signal(d: Thread)
      requires Inv() && d in places && places[d].Signalling?
      modifies `pipe, `places
      ensures Inv() && pipe == 1 == old(pipe) + 1 && places == old(places)[d := Linked(old(places)[d].task)]
    {
      hide Held;
      assert PlaceOk(places[d], owner == Dispatcher(d), next, queue);
      HeldMoved(next, next, queue, queue, places, d, Linked(places[d].task));
      pipe := pipe + 1;
      places := places[d := Linked(places[d].task)];
    }

    method SetTail(d: Thread)
      requires Inv() && d in places && places[d].Linked?
      modifies `tail, `places
      ensures Inv() && tail == old(places)[d].task && places == old(places)[d := Finished(old(places)[d].task)]
    {
      hide Held;
      assert PlaceOk(places[d], owner == Dispatcher(d), next, queue);
      HeldMoved(next, next, queue, queue, places, d, Finished(places[d].task));
      tail := places[d].task;
      places := places[d := Finished(places[d].task)];
    }

    method Unlock(d: Thread)
      requires Inv() && d in places && places[d].Finished?
      modifies `owner, `places
      ensures Inv() && owner == Nobody && places == old(places) - {d}
    {
      hide Held;
      assert PlaceOk(places[d], owner == Dispatcher(d), next, queue);
      HeldInQueue(next, queue, places, d);
      assert forall e :: e in places && e != d ==> PlaceOk(places[e], owner == Dispatcher(e), next, queue);
      owner := Nobody;
      places := places - {d};
    }

    // ---------------------------------------------------------------- the background thread

    /** Empties the pipe that woke the thread up: there is exactly one byte in it. */
    method Read() returns (bytes: nat)
      requires Inv() && worker.Polling? && pipe > 0
      modifies `pipe, `worker
      ensures Inv() && bytes == 1 && pipe == 0 && worker == Woken && queue != []
    {
      bytes := Min(pipe, 1024);
      pipe := pipe - bytes;
      worker := Woken;
    }

    method LockQueue()
      requires Inv() && worker.Woken? && owner == Nobody
      modifies `owner, `worker
      ensures Inv() && worker == Draining
    {
      owner := Background;
      worker := Draining;
    }

    /** Takes the first task out of the queue and runs it, after which its memory is gone. */
    method RunNext()
      requires Inv() && worker.Draining? && head != NULL
      modifies `head, `next, `ran, `queue
      ensures Inv() && old(queue) != [] && ran == old(ran) + [old(queue)[0]] && queue == old(queue)[1..]
    {
      var task := head;
      hide Held;
      Unlinked(next, head, queue);
      TaskLeaves();
      HeldBehindHead(next, queue, places);
      head := next[task];
      next := next - {task};
      ran := ran + [task];
      queue := queue[1..];
    }

    lemma TaskLeaves()
      requires Inv() && worker.Draining? && queue != []
      ensures PlacesOk(places, owner, next - {head}, queue[1..])
      ensures |queue| > 1 ==> queue[1..][|queue| - 2] == queue[|queue| - 1]
      ensures ran + queue == ran + [queue[0]] + queue[1..]
    {
    }

    method UnlockQueue()
      requires Inv() && worker.Draining? && head == NULL
      modifies `owner, `worker
      ensures Inv() && owner == Nobody && worker == Polling && ran == dispatched
    {
      owner := Nobody;
      worker := Polling;
    }

    // ---------------------------------------------------------------- what the invariant means

    /** Outside the draining loop the queue has something in it exactly if one wake-up is on its way: a
        byte in the pipe, one that is about to be written, or one that has just been read. */
    lemma OneWakeup()
      requires Inv() && !worker.Draining?
      ensures queue != [] <==> Wakeups(pipe, worker, Inside(places, owner)) == 1
      ensures queue == [] <==> Wakeups(pipe, worker, Inside(places, owner)) == 0
      ensures queue != [] && worker.Polling? && !Inside(places, owner).Signalling? ==> pipe == 1
    {
    }

    /** Nobody waits for ever: while there is a task in the queue, the background thread can take its next
        step or the thread that holds the mutex can. */
    lemma SomebodyCanMove()
      requires Inv() && queue != []
      ensures
        || owner.Dispatcher?
        || worker.Draining?
        || (worker.Woken? && owner == Nobody)
        || (worker.Polling? && pipe > 0)
    {
    }

    /** Unless everything has been run and all threads are at rest, somebody can take a step without another task
        being handed over. */
    lemma SomebodyGoesOn() returns (s: Step)
      requires Inv() && (queue != [] || places != map[] || !worker.Polling? || ran != dispatched)
      ensures Enabled(Value(), s) && !s.Start?
    {
      match owner
      case Dispatcher(d) =>
        assert PlaceOk(places[d], true, next, queue);
        match places[d] {
          case Locked(_) => s := Step.Append(d);
          case Signalling(_) => s := Step.Signal(d);
          case Linked(_) => s := Step.SetTail(d);
          case _ => s := Step.Unlock(d);
        }
      case Background => s := if queue == [] then Step.UnlockQueue else Step.RunNext;
      case Nobody =>
        if worker.Woken? {
          s := Step.LockQueue;
        } else if places != map[] {
          var d :| d in places;
          assert PlaceOk(places[d], false, next, queue);
          s := Step.Lock(d);
        } else {
          s := Step.Read;
        }
    }

    /** A task is in nobody's hands exactly if its memory is not in use. */
    lemma NobodysTask(task: Task)
      requires Inv()
      ensures task !in next <==> task !in queue && forall d :: d in places ==> places[d].task != task
    {
    }

    lemma QueueEmpty()
      requires Inv()
      ensures head == NULL <==> queue == []
      ensures worker.Polling? && pipe > 0 ==> pipe == 1
    {
    }

    /** Tasks are run once each, in the order in which they were dispatched, and none is skipped. */
    lemma RunsInOrder()
      requires Inv()
      ensures ran <= dispatched && dispatched[|ran|..] == queue
    {
    }
  }

  /** Takes a step if the thread can take it. */
  method Take(a: Async, s: Step)
    requires a.Inv()
    modifies a
    ensures a.Inv() && a.Value() == StepOf(old(a.Value()), s)
  {
    hide Async.Inv;
    a.QueueEmpty();
    match s
    case Start(d, task) =>
      a.NobodysTask(task);
      if d !in a.places && task != NULL && task !in a.next { a.Start(d, task); }
    case Lock(d) => if d in a.places && a.places[d].Ready? && a.owner == Nobody { a.Lock(d); }
    case Append(d) => if d in a.places && a.places[d].Locked? { a.Append(d); }
    case Signal(d) => if d in a.places && a.places[d].Signalling? { a.Signal(d); }
    case SetTail(d) => if d in a.places && a.places[d].Linked? { a.SetTail(d); }
    case Unlock(d) => if d in a.places && a.places[d].Finished? { a.Unlock(d); }
    case Read => if a.worker == Polling && a.pipe > 0 { var bytes := a.Read(); }
    case LockQueue => if a.worker == Woken && a.owner == Nobody { a.LockQueue(); }
    case RunNext => if a.worker == Draining && a.head != NULL { a.RunNext(); }
    case UnlockQueue => if a.worker == Draining && a.head == NULL { a.UnlockQueue(); }
  }

  /** Under every interleaving of any number of threads the queue does what the steps say. */
  method Interleave(steps: seq<Step>) returns (a: Async)
    ensures a.Inv() && a.Value() == AfterSteps(IDLE, steps)
  {
    hide Async.Inv, StepOf;
    a := new Async();
    for i := 0 to |steps|
      invariant a.Inv() && a.Value() == AfterSteps(IDLE, steps[..i])
    {
      Take(a, steps[i]);
      assert steps[..i + 1][..i] == steps[..i];
    }
    assert steps[..|steps|] == steps;
  }

  // ---------------------------------------------------------------- running dry

  /** An upper bound on the steps that a dispatching thread's task still causes. */
  function PlaceWeight(p: Place): nat {
    match p
    case Ready(_) => 9
    case Locked(_) => 8
    case Signalling(_) => 6
    case Linked(_) => 2
    case Finished(_) => 1
  }

  ghost function PlacesWeight(places: map<Thread, Place>): nat
    decreases |places|
  {
    if places == map[] then 0
    else
      var d :| d in places;
      PlaceWeight(places[d]) + PlacesWeight(places - {d})
  }

  /** An upper bound on the steps that can be taken before another task is handed over. */
  ghost function StepsLeft(m: Machine): nat {
    PlacesWeight(m.places) + |m.queue| + 3 * m.pipe
    + match m.worker { case Polling => 0 case Woken => 2 case Draining => 1 }
  }

  lemma {:induction false} PlacesWithout(places: map<Thread, Place>, d: Thread)
    requires d in places
    ensures PlacesWeight(places) == PlaceWeight(places[d]) + PlacesWeight(places - {d})
    decreases |places|
  {
    var e :| e in places && PlacesWeight(places) == PlaceWeight(places[e]) + PlacesWeight(places - {e});
    if e != d {
      PlacesWithout(places - {e}, d);
      PlacesWithout(places - {d}, e);
      assert places - {e} - {d} == places - {d} - {e};
    }
  }

  lemma PlaceMoved(places: map<Thread, Place>, d: Thread, p: Place)
    requires d in places
    ensures PlacesWeight(places[d := p]) == PlacesWeight(places) - PlaceWeight(places[d]) + PlaceWeight(p)
  {
    PlacesWithout(places, d);
    PlacesWithout(places[d := p], d);
    assert places[d := p] - {d} == places - {d};
  }

  lemma StepCounts(m: Machine, s: Step)
    requires Enabled(m, s) && !s.Start?
    ensures StepsLeft(StepOf(m, s)) < StepsLeft(m)
  {
    match s
    case Lock(d) => PlaceMoved(m.places, d, Locked(m.places[d].task));
    case Append(d) =>
      PlaceMoved(m.places, d, Signalling(m.places[d].task));
      PlaceMoved(m.places, d, Linked(m.places[d].task));
    case Signal(d) => PlaceMoved(m.places, d, Linked(m.places[d].task));
    case SetTail(d) => PlaceMoved(m.places, d, Finished(m.places[d].task));
    case Unlock(d) => PlacesWithout(m.places, d);
    case _ =>
  }

  /** Each step is one that a thread can take, and hands over nothing new. */
  predicate Runs(m: Machine, steps: seq<Step>) {
    forall i :: 0 <= i < |steps| ==> Enabled(AfterSteps(m, steps[..i]), steps[i]) && !steps[i].Start?
  }

  /** Once no more tasks are handed over the threads come to rest, however they are interleaved. */
  lemma {:induction false} ComesToRest(m: Machine, steps: seq<Step>)
    requires Runs(m, steps)
    ensures |steps| + StepsLeft(AfterSteps(m, steps)) <= StepsLeft(m)
    decreases |steps|
  {
    if steps != [] {
      var n := |steps| - 1;
      assert forall i :: 0 <= i < n ==> steps[..n][..i] == steps[..i];
      ComesToRest(m, steps[..n]);
      StepCounts(AfterSteps(m, steps[..n]), steps[n]);
    }
  }

  lemma {:induction false} PlacesBound(places: map<Thread, Place>)
    ensures PlacesWeight(places) <= 9 * |places|
    decreases |places|
  {
    if places != map[] {
      var d :| d in places;
      PlacesWithout(places, d);
      assert (places - {d}).Keys == places.Keys - {d};
      PlacesBound(places - {d});
    }
  }

  /** There are at most nine steps for each thread that has a task, and a few for the background thread. */
  lemma FewStepsLeft(m: Machine, steps: seq<Step>)
    requires Runs(m, steps)
    ensures |steps| <= 9 * |m.places| + |m.queue| + 3 * m.pipe + 2
  {
    ComesToRest(m, steps);
    PlacesBound(m.places);
  }
}
