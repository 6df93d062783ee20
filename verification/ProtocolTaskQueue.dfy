/**
 The protocol with the heap of src/queue.c in the place of its bag of tasks: which task a
 worker takes is decided by the heap.  Its runs are runs of the protocol, so that all that
 is proved of the protocol holds, and every task taken is a maximum of those queued.
 */
module ProtocolTaskQueue {
  import opened Types
  import opened Heap
  import Q = QueueModel
  import TaskOrder
  import opened Protocol
  import opened ProtocolProgress

  /** A state of the threads, and the array behind the task queue. */
  datatype Server = Server(s: State, q: Q.QueueState<Request>)

  /** The bag and the array are the same queue. */
  ghost predicate Agrees(v: Server) {
    multiset(v.q.items) == v.s.tasks.items && v.q.closed == v.s.tasks.closed
  }

  /** The thread is about to learn what `queue_pop` of the task queue gives it. */
  predicate PopsTask(s: State, t: Tid) {
    t in s.threads && s.threads[t] == Popping(TaskQueue, PopHold)
  }

  /** A worker takes what `queue_pop` returns, and waits or leaves when it returns nothing. */
  ghost predicate HeapEnabled(v: Server, t: Tid, a: Step) {
    if PopsTask(v.s, t) && (a.PopRequest? || a.PopNothing?) then
      match Q.PopOutcome(v.q)
      case Popped(r) => a == PopRequest(r)
      case _ => a == PopNothing
    else
      Enabled(v.s, t, a)
  }

  /** What the heap decides is one of the things that the bag leaves open. */
  lemma HeapStepIsStep(v: Server, t: Tid, a: Step)
    requires Agrees(v) && HeapEnabled(v, t, a)
    ensures Enabled(v.s, t, a)
  {
  }

  /** What the step does with the task queue. */
  ghost function QueueOp(s: State, t: Tid, a: Step): Option<Q.Op<Request>>
    requires Enabled(s, t, a)
  {
    match a
    case Submit(_) => Some(Q.Push(s.threads[t].r))
    case PopRequest(_) => Some(Q.Pop)
    case Shut => if s.threads[t].m == QueueMutex(TaskQueue) then Some(Q.Close) else None
    case _ => None
  }

  ghost function HeapPost(cmp: (Request, Request) -> int, v: Server, t: Tid, a: Step): Server
    requires Enabled(v.s, t, a)
  {
    var op := QueueOp(v.s, t, a);
    Server(Post(v.s, t, a), if op.Some? then Q.Exec(cmp, v.q, op.value) else v.q)
  }

  /**
   Nothing is said of a step that the heap makes a thread take and the protocol does not
   allow; that there is none follows from the agreement of the two queues.
   */
  ghost predicate HeapNext(cmp: (Request, Request) -> int, v: Server, v': Server) {
    exists t: Tid, a: Step :: HeapEnabled(v, t, a) && (Enabled(v.s, t, a) ==> v' == HeapPost(cmp, v, t, a))
  }

  ghost predicate IsHeapRun(cmp: (Request, Request) -> int, run: seq<Server>) {
    && |run| > 0
    && IsInit(run[0].s) && run[0].q == Q.Init()
    && forall i :: 0 < i < |run| ==> HeapNext(cmp, run[i - 1], run[i])
  }

  // ---------- Its runs are runs of the protocol ----------

  lemma TasksFollow(v: Server, t: Tid, a: Step)
    requires Enabled(v.s, t, a) && Agrees(v)
    ensures var tasks, op := TasksAfter(v.s, t, a), QueueOp(v.s, t, a);
            match op
            case None => tasks == v.s.tasks
            case Some(Push(r)) =>
              tasks.closed == v.q.closed &&
              tasks.items == if v.q.closed then v.s.tasks.items else v.s.tasks.items + multiset{r}
            case Some(Pop) => a.PopRequest? && tasks == v.s.tasks.(items := v.s.tasks.items - multiset{a.r})
            case Some(Close) => tasks == v.s.tasks.(closed := true)
  {
  }

  lemma AgreesKept(cmp: (Request, Request) -> int, v: Server, t: Tid, a: Step)
    requires Agrees(v) && HeapEnabled(v, t, a) && Enabled(v.s, t, a)
    ensures Agrees(HeapPost(cmp, v, t, a))
  {
    TasksFollow(v, t, a);
    var op := QueueOp(v.s, t, a);
    if op.Some? {
      Q.ExecOnBag(cmp, v.q, op.value);
    }
  }

  function States(run: seq<Server>): (r: seq<State>)
    ensures |r| == |run| && forall i :: 0 <= i < |r| ==> r[i] == run[i].s
  {
    if run == [] then [] else [run[0].s] + States(run[1..])
  }

  ghost predicate Ordered(cmp: (Request, Request) -> int, v: Server) {
    TotalPreorder(cmp) ==> IsHeap(cmp, v.q.items)
  }

  lemma NextKeeps(cmp: (Request, Request) -> int, v: Server, v': Server)
    requires Agrees(v) && Ordered(cmp, v) && HeapNext(cmp, v, v')
    ensures Agrees(v') && Ordered(cmp, v') && Next(v.s, v'.s)
  {
    var t, a :| HeapEnabled(v, t, a) && (Enabled(v.s, t, a) ==> v' == HeapPost(cmp, v, t, a));
    HeapStepIsStep(v, t, a);
    AgreesKept(cmp, v, t, a);
    var op := QueueOp(v.s, t, a);
    if TotalPreorder(cmp) && op.Some? {
      Q.ExecKeepsHeap(cmp, v.q, op.value);
    }
  }

  lemma {:induction false} HeapRunKeeps(cmp: (Request, Request) -> int, run: seq<Server>, i: nat)
    requires IsHeapRun(cmp, run) && i < |run|
    ensures Agrees(run[i]) && Ordered(cmp, run[i])
    decreases i
  {
    if i > 0 {
      HeapRunKeeps(cmp, run, i - 1);
      NextKeeps(cmp, run[i - 1], run[i]);
    }
  }

  /** With the heap the threads do nothing that they could not do with the bag. */
  lemma HeapRunIsRun(cmp: (Request, Request) -> int, run: seq<Server>)
    requires IsHeapRun(cmp, run)
    ensures IsRun(States(run))
  {
    var states := States(run);
    forall i | 0 < i < |states|
      ensures Next(states[i - 1], states[i])
    {
      HeapRunKeeps(cmp, run, i - 1);
      NextKeeps(cmp, run[i - 1], run[i]);
    }
  }

  /** The heap makes no thread wait that the bag would let go on. */
  lemma HeapLetsStep(v: Server, t: Tid)
    requires Agrees(v) && CanStep(v.s, t)
    ensures exists a :: HeapEnabled(v, t, a)
  {
    var a :| Enabled(v.s, t, a);
    if PopsTask(v.s, t) && (a.PopRequest? || a.PopNothing?) {
      match Q.PopOutcome(v.q)
      case Popped(r) => assert HeapEnabled(v, t, PopRequest(r));
      case _ => assert HeapEnabled(v, t, PopNothing);
    } else {
      assert HeapEnabled(v, t, a);
    }
  }

  /** A worker for which there is nothing leaves if `queue_pop` returned NULL, and else sleeps. */
  lemma NothingToTake(v: Server, t: Tid)
    requires Agrees(v) && PopsTask(v.s, t) && HeapEnabled(v, t, PopNothing)
    ensures Enabled(v.s, t, PopNothing)
    ensures Target(v.s, t, PopNothing) ==
            if Q.PopOutcome(v.q) == Q.Closed then Exited(TaskQueue) else Popping(TaskQueue, PopSleep)
  {
  }

  // ---------- Which task is taken ----------

  /** Whatever the interleaving, the task a worker takes is a maximum of those queued. */
  lemma TakesMaximum(cmp: (Request, Request) -> int, run: seq<Server>, t: Tid, r: Request)
    requires TotalPreorder(cmp) && IsHeapRun(cmp, run)
    requires PopsTask(run[|run| - 1].s, t) && HeapEnabled(run[|run| - 1], t, PopRequest(r))
    ensures IsMaximum(cmp, run[|run| - 1].s.tasks.items, r)
  {
    var v := run[|run| - 1];
    HeapRunKeeps(cmp, run, |run| - 1);
    RootIsMaximumOfBag(cmp, v.q.items);
  }

  /** The comparator on the tasks that requests point to. */
  function OnTasks(cmp: (Task, Task) -> int, task: Request -> Task): (Request, Request) -> int {
    (a: Request, b: Request) => cmp(task(a), task(b))
  }

  lemma OnTasksIsPreorder(cmp: (Task, Task) -> int, task: Request -> Task)
    requires TotalPreorder(cmp)
    ensures TotalPreorder(OnTasks(cmp, task))
  {
    var on := OnTasks(cmp, task);
    assert forall a, b :: on(a, b) == cmp(task(a), task(b));
  }

  /** As written: no task in the queue is less urgent than the one a worker takes. */
  lemma WorkersTakeLeastUrgent(task: Request -> Task, run: seq<Server>, t: Tid, r: Request, x: Request)
    requires IsHeapRun(OnTasks(TaskOrder.TaskCompare, task), run)
    requires PopsTask(run[|run| - 1].s, t) && HeapEnabled(run[|run| - 1], t, PopRequest(r))
    requires x in run[|run| - 1].s.tasks.items
    ensures !TaskOrder.MoreUrgent(task(r), task(x))
  {
    TaskOrder.ComparatorsArePreorders();
    OnTasksIsPreorder(TaskOrder.TaskCompare, task);
    TakesMaximum(OnTasks(TaskOrder.TaskCompare, task), run, t, r);
    TaskOrder.SignOfCompare(task(r), task(x));
  }

  /** With the documented sign: none is more urgent. */
  lemma DocumentedWorkersTakeMostUrgent(task: Request -> Task, run: seq<Server>, t: Tid, r: Request, x: Request)
    requires IsHeapRun(OnTasks(TaskOrder.DocumentedCompare, task), run)
    requires PopsTask(run[|run| - 1].s, t) && HeapEnabled(run[|run| - 1], t, PopRequest(r))
    requires x in run[|run| - 1].s.tasks.items
    ensures !TaskOrder.MoreUrgent(task(x), task(r))
  {
    TaskOrder.ComparatorsArePreorders();
    OnTasksIsPreorder(TaskOrder.DocumentedCompare, task);
    TakesMaximum(OnTasks(TaskOrder.DocumentedCompare, task), run, t, r);
    TaskOrder.SignOfCompare(task(r), task(x));
  }
}
