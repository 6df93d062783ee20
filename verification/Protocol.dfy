/**
 The server's threads as a labelled transition system: the main thread of src/main.c,
 any number of client threads (src/client.c) and worker threads (src/worker.c), the two
 queues they block on (src/queue.c), the response map and one response entry per
 connection.

 Every `pthread_mutex_lock` is a step of its own, taken only when the mutex is free.  The
 code between taking a mutex and the next lock, wait or unlock of the same thread touches
 only what that mutex protects, and is one step.  A thread asleep on a condition variable
 can be signalled, broadcast to, time out or wake spuriously; it must then take the mutex
 again.  Queues are bags here: which element a pop returns is left open.  Module
 ProtocolTaskQueue puts the heap in the place of the bag of tasks.

 `conn`, `fate`, `served`, `popped`, `lost` and `log` are history: no step depends on them
 (module ProtocolHistory proves it of all but `log`, which only `Reply` looks up to extend).
 */
module Protocol {
  import opened Types

  type Tid = nat
  type Cid = nat

  /** A task on the heap; `id` stands for its address, which no two tasks share. */
  datatype Request = Request(id: nat, client: Cid, kind: CommandType)

  /** The queues whose `queue_pop` can put a thread to sleep. */
  datatype QueueId = ClientQueue | TaskQueue

  datatype Mutex = QueueMutex(q: QueueId) | TableMutex | EntryMutex(c: Cid) | EntryQueueMutex(c: Cid)

  datatype CondVar = NotEmpty(q: QueueId) | Available(c: Cid) | EntryNotEmpty(c: Cid)

  datatype WaitResult = InTime | TimedOut | Failed

  /** What a client thread writes back for a request; nothing when the wait itself failed. */
  datatype Answer = Answered(request: Request) | TimeoutLine | NoLine

  /** The record of a wait that has ended. */
  datatype Wait = Wait(request: Request, answer: Answer)

  datatype Role = MainRole | ClientRole | WorkerRole

  /** A pass through `queue_pop` in the main loop of a client or worker thread. */
  datatype PopPc = PopWant | PopHold | PopSleep | PopWoken

  /** A client thread from the moment its request is pushed until it stops waiting. */
  datatype WaitPc =
    | FindWant | FindHold
    | LockWant(rc: WaitResult) | LockHold(rc: WaitResult) | WaitSleep
    | TakeWant | TakeHold | TakeSleep

  /** A client thread inside `deregister_client_response_queue`, its entry unlisted. */
  datatype ClosePc = CloseWant | CloseHold | CloseQueueHold | CloseDone | Destroying

  /** A worker thread from the pop of a request until the push of the response. */
  datatype CarryPc =
    | Working
    | LookWant | LookHold
    | GiveWant | GiveHold
    | GiveQueueWant(wasEmpty: bool) | GiveQueueHold(wasEmpty: bool)

  /**
   Where a thread is.  `...Want`, or a false `held`, is blocked in `pthread_mutex_lock`;
   `...Hold`, or a true `held`, has just been granted the mutex; `...Sleep` is asleep on
   a condition variable.
   */
  datatype Pc =
    | Popping(q: QueueId, p: PopPc)
    | Exited(q: QueueId)
    // client thread
    | Reading(c: Cid)
    | Pushing(r: Request, held: bool)
    | Awaiting(r: Request, w: WaitPc)
    | Answering(r: Request, answer: Answer, held: bool)
    | Deregistering(c: Cid, held: bool)
    | Closing(c: Cid, k: ClosePc)
    // worker thread
    | Carrying(r: Request, g: CarryPc)
    | Given(r: Request, wasEmpty: bool)
    | Faulted(r: Request)
    // main thread
    | Accepting
    | Registering(c: Cid, held: bool)
    | Offering(c: Cid, held: bool)
    | Shutting(m: Mutex, held: bool)
    | Joining
    | Stopped

  datatype SharedQueue<T> = SharedQueue(items: multiset<T>, closed: bool)

  /** The life of a connection. */
  datatype Conn = Fresh | Offered | Pending | ServedBy(t: Tid) | ClosedBy(t: Tid) | Left

  /** What became of a request that was submitted. */
  datatype Fate = Queued | Held(t: Tid) | Delivered | Consumed | Dropped | Discarded

  datatype State = State(
    role: map<Tid, Role>,
    threads: map<Tid, Pc>,
    owner: map<Mutex, Tid>,
    tasks: SharedQueue<Request>,
    clients: SharedQueue<Cid>,
    table: SharedQueue<Cid>,
    entries: map<Cid, SharedQueue<Request>>,
    nextClient: Cid,
    nextRequest: nat,
    conn: map<Cid, Conn>,
    fate: map<Request, Fate>,
    served: multiset<Cid>,
    popped: multiset<Request>,
    lost: map<Cid, nat>,
    log: map<Cid, seq<Wait>>)

  /** The commands that `client_thread_main` pushes to the workers. */
  predicate Pushable(k: CommandType) {
    k != Unknown && k != Quit
  }

  /**
   How many times the worker's switch calls `send_response`, whichever branch it takes;
   `Worker.ServeTask` is proved to send that many.
   */
  function ResponsesSent(k: CommandType): nat {
    match k
    case Signup => 1
    case Login => 1
    case Upload => 1
    case Download => 1
    case Delete => 1
    case List => 1
    case _ => 0
  }

  // ---------- What a program counter means ----------

  /** The mutex a thread is blocked on. */
  function Wants(pc: Pc): Option<Mutex> {
    match pc
    case Popping(q, p) => if p == PopWant || p == PopWoken then Some(QueueMutex(q)) else None
    case Pushing(r, held) => if held then None else Some(QueueMutex(TaskQueue))
    case Awaiting(r, w) => (
      match w
      case FindWant => Some(TableMutex)
      case LockWant(_) => Some(EntryMutex(r.client))
      case TakeWant => Some(EntryQueueMutex(r.client))
      case _ => None)
    case Deregistering(c, held) => if held then None else Some(TableMutex)
    case Closing(c, k) => (
      match k
      case CloseWant => Some(EntryMutex(c))
      case CloseHold => Some(EntryQueueMutex(c))
      case _ => None)
    case Carrying(r, g) => (
      match g
      case LookWant => Some(TableMutex)
      case GiveWant => Some(EntryMutex(r.client))
      case GiveQueueWant(_) => Some(EntryQueueMutex(r.client))
      case _ => None)
    case Registering(c, held) => if held then None else Some(TableMutex)
    case Offering(c, held) => if held then None else Some(QueueMutex(ClientQueue))
    case Shutting(m, held) => if held then None else Some(m)
    case _ => None
  }

  /** Where the thread is once it has the mutex it wants. */
  function Granted(pc: Pc): Pc
    requires Wants(pc).Some?
  {
    match pc
    case Popping(q, p) => Popping(q, PopHold)
    case Awaiting(r, w) =>
      Awaiting(r, match w case FindWant => FindHold case LockWant(rc) => LockHold(rc) case _ => TakeHold)
    case Closing(c, k) => Closing(c, if k == CloseWant then CloseHold else CloseQueueHold)
    case Carrying(r, g) =>
      Carrying(r, match g case LookWant => LookHold case GiveWant => GiveHold case GiveQueueWant(e) => GiveQueueHold(e))
    case Pushing(r, _) => Pushing(r, true)
    case Deregistering(c, _) => Deregistering(c, true)
    case Registering(c, _) => Registering(c, true)
    case Offering(c, _) => Offering(c, true)
    case Shutting(m, _) => Shutting(m, true)
  }

  predicate Holds(pc: Pc, m: Mutex) {
    match pc
    case Popping(q, p) => p == PopHold && m == QueueMutex(q)
    case Pushing(r, held) => held && m == QueueMutex(TaskQueue)
    case Awaiting(r, w) => (
      match w
      case FindHold => m == TableMutex
      case LockHold(_) => m == EntryMutex(r.client)
      case TakeWant => m == EntryMutex(r.client)
      case TakeHold => m == EntryMutex(r.client) || m == EntryQueueMutex(r.client)
      case TakeSleep => m == EntryMutex(r.client)
      case _ => false)
    case Answering(r, a, held) => held && m == EntryMutex(r.client)
    case Deregistering(c, held) => held && m == TableMutex
    case Closing(c, k) => (
      match k
      case CloseHold => m == EntryMutex(c)
      case CloseQueueHold => m == EntryMutex(c) || m == EntryQueueMutex(c)
      case CloseDone => m == EntryMutex(c)
      case _ => false)
    case Carrying(r, g) => (
      match g
      case LookHold => m == TableMutex
      case GiveHold => m == EntryMutex(r.client)
      case GiveQueueWant(_) => m == EntryMutex(r.client)
      case GiveQueueHold(_) => m == EntryMutex(r.client) || m == EntryQueueMutex(r.client)
      case _ => false)
    case Given(r, _) => m == EntryMutex(r.client)
    case Registering(c, held) => held && m == TableMutex
    case Offering(c, held) => held && m == QueueMutex(ClientQueue)
    case Shutting(m', held) => held && m == m'
    case _ => false
  }

  /** The condition variable a thread is asleep on. */
  function Asleep(pc: Pc): Option<CondVar> {
    match pc
    case Popping(q, p) => if p == PopSleep then Some(NotEmpty(q)) else None
    case Awaiting(r, w) =>
      if w == WaitSleep then Some(Available(r.client))
      else if w == TakeSleep then Some(EntryNotEmpty(r.client))
      else None
    case _ => None
  }

  /** Where a sleeper is once it has been woken: it wants its mutex back. */
  function Woken(pc: Pc): Pc
    requires Asleep(pc).Some?
  {
    match pc
    case Popping(q, _) => Popping(q, PopWoken)
    case Awaiting(r, w) => Awaiting(r, if w == WaitSleep then LockWant(InTime) else TakeWant)
  }

  function RoleOf(pc: Pc): Role {
    match pc
    case Popping(q, _) => if q == ClientQueue then ClientRole else WorkerRole
    case Exited(q) => if q == ClientQueue then ClientRole else WorkerRole
    case Carrying(_, _) => WorkerRole
    case Given(_, _) => WorkerRole
    case Faulted(_) => WorkerRole
    case Accepting => MainRole
    case Registering(_, _) => MainRole
    case Offering(_, _) => MainRole
    case Shutting(_, _) => MainRole
    case Joining => MainRole
    case Stopped => MainRole
    case _ => ClientRole
  }

  /** The connection a thread is working for, as registrar, server or closer. */
  function ConnectionOf(t: Tid, pc: Pc): Option<(Cid, Conn)> {
    match pc
    case Registering(c, _) => Some((c, Fresh))
    case Offering(c, _) => Some((c, Offered))
    case Reading(c) => Some((c, ServedBy(t)))
    case Pushing(r, _) => Some((r.client, ServedBy(t)))
    case Awaiting(r, _) => Some((r.client, ServedBy(t)))
    case Answering(r, _, _) => Some((r.client, ServedBy(t)))
    case Deregistering(c, _) => Some((c, ServedBy(t)))
    case Closing(c, _) => Some((c, ClosedBy(t)))
    case _ => None
  }

  // ---------- Signals ----------

  /** `pthread_cond_signal` wakes one sleeper if there is any. */
  ghost predicate ValidWake(threads: map<Tid, Pc>, cv: CondVar, w: Option<Tid>) {
    match w
    case None => forall u :: u in threads ==> Asleep(threads[u]) != Some(cv)
    case Some(u) => u in threads && Asleep(threads[u]) == Some(cv)
  }

  ghost function WakeOne(threads: map<Tid, Pc>, cv: CondVar, w: Option<Tid>): map<Tid, Pc>
    requires ValidWake(threads, cv, w)
  {
    if w.Some? then threads[w.value := Woken(threads[w.value])] else threads
  }

  /** `pthread_cond_broadcast`. */
  function WakeAll(threads: map<Tid, Pc>, cv: CondVar): map<Tid, Pc> {
    map u | u in threads :: if Asleep(threads[u]) == Some(cv) then Woken(threads[u]) else threads[u]
  }

  // ---------- Steps ----------

  datatype Step =
    | Acquire
    | WakeSpuriously
    | Expire(rc: WaitResult)
    | PopRequest(r: Request)
    | PopClient(c: Cid)
    | PopNothing
    | Read(kind: CommandType)
    | Submit(wake: Option<Tid>)
    | Find
    | Check
    | Take(r: Request)
    | TakeNothing
    | Unlock
    | Reply
    | Deregister
    | CloseEntryQueue
    | FinishClose
    | Destroy
    | Process
    | Look
    | Peek
    | Give(wake: Option<Tid>)
    | FinishGive(wake: Option<Tid>)
    | Fault
    | Accept
    | Register
    | Offer(wake: Option<Tid>)
    | Stop
    | Shut
    | Join

  ghost predicate Enabled(s: State, t: Tid, a: Step)
  {
    t in s.threads &&
    var pc := s.threads[t];
    match a
    case Acquire => Wants(pc).Some? && Wants(pc).value !in s.owner
    case WakeSpuriously => Asleep(pc).Some?
    case Expire(rc) => pc.Awaiting? && pc.w == WaitSleep && rc != InTime
    case PopRequest(r) => pc == Popping(TaskQueue, PopHold) && r in s.tasks.items
    case PopClient(c) => pc == Popping(ClientQueue, PopHold) && c in s.clients.items
    case PopNothing => pc.Popping? && pc.p == PopHold && QueueSize(s, pc.q) == 0
    case Read(_) => pc.Reading?
    case Submit(w) => pc.Pushing? && pc.held && (s.tasks.closed || ValidWake(s.threads, NotEmpty(TaskQueue), w))
    case Find => pc.Awaiting? && pc.w == FindHold
    case Check => pc.Awaiting? && pc.w.LockHold? && pc.r.client in s.entries
    case Take(x) => pc.Awaiting? && pc.w == TakeHold && pc.r.client in s.entries && x in s.entries[pc.r.client].items
    case TakeNothing =>
      pc.Awaiting? && pc.w == TakeHold && pc.r.client in s.entries && s.entries[pc.r.client].items == multiset{}
    case Unlock => pc.Answering? && pc.held
    case Reply => pc.Answering? && !pc.held && pc.r.client in s.log
    case Deregister => pc.Deregistering? && pc.held
    case CloseEntryQueue => pc.Closing? && pc.k == CloseQueueHold && pc.c in s.entries
    case FinishClose => pc.Closing? && pc.k == CloseDone
    case Destroy => pc.Closing? && pc.k == Destroying
    case Process => pc.Carrying? && pc.g == Working
    case Look => pc.Carrying? && pc.g == LookHold
    case Peek => pc.Carrying? && pc.g == GiveHold && pc.r.client in s.entries
    case Give(w) =>
      && pc.Carrying? && pc.g.GiveQueueHold? && pc.r.client in s.entries
      && (s.entries[pc.r.client].closed || ValidWake(s.threads, EntryNotEmpty(pc.r.client), w))
    case FinishGive(w) =>
      && pc.Given? && pc.r.client in s.entries
      && (pc.wasEmpty ==> ValidWake(s.threads, Available(pc.r.client), w))
    case Fault =>
      && (pc.Given? || (pc.Carrying? && pc.g != Working && !pc.g.LookWant? && !pc.g.LookHold?))
      && pc.r.client !in s.entries
    case Accept => pc == Accepting
    case Register => pc.Registering? && pc.held
    case Offer(w) => pc.Offering? && pc.held && (s.clients.closed || ValidWake(s.threads, NotEmpty(ClientQueue), w))
    case Stop => pc == Accepting
    case Shut => pc.Shutting? && pc.held
    case Join => pc == Joining && forall u :: u in s.threads && u != t ==> s.threads[u].Exited?
  }

  function QueueSize(s: State, q: QueueId): nat {
    if q == TaskQueue then |s.tasks.items| else |s.clients.items|
  }

  predicate IsClosed(s: State, q: QueueId) {
    if q == TaskQueue then s.tasks.closed else s.clients.closed
  }

  // Each field of the state after step `a` of thread `t`, one function a field: a step
  // that a function does not name leaves the field alone.

  /** Where the stepping thread goes. */
  ghost function Target(s: State, t: Tid, a: Step): Pc
    requires Enabled(s, t, a)
  {
    var pc := s.threads[t];
    match a
    case Acquire => Granted(pc)
    case WakeSpuriously => Woken(pc)
    case Expire(rc) => Awaiting(pc.r, LockWant(rc))
    case PopRequest(r) => Carrying(r, Working)
    case PopClient(c) => Reading(c)
    case PopNothing => if IsClosed(s, pc.q) then Exited(pc.q) else Popping(pc.q, PopSleep)
    case Read(kind) =>
      if Pushable(kind) then Pushing(Request(s.nextRequest, pc.c, kind), false)
      else if kind == Quit then Deregistering(pc.c, false)
      else pc
    case Submit(_) => Awaiting(pc.r, FindWant)
    case Find =>
      if pc.r.client in s.table.items then Awaiting(pc.r, LockWant(InTime)) else Deregistering(pc.r.client, false)
    case Check =>
      if s.entries[pc.r.client].items != multiset{} then Awaiting(pc.r, TakeWant)
      else if pc.w.rc == InTime then Awaiting(pc.r, WaitSleep)
      else Answering(pc.r, if pc.w.rc == TimedOut then TimeoutLine else NoLine, false)
    case Take(x) => Answering(pc.r, Answered(x), true)
    case TakeNothing =>
      if s.entries[pc.r.client].closed then Answering(pc.r, NoLine, true) else Awaiting(pc.r, TakeSleep)
    case Unlock => Answering(pc.r, pc.answer, false)
    case Reply => Reading(pc.r.client)
    case Deregister => if pc.c in s.table.items then Closing(pc.c, CloseWant) else Popping(ClientQueue, PopWant)
    case CloseEntryQueue => Closing(pc.c, CloseDone)
    case FinishClose => Closing(pc.c, Destroying)
    case Destroy => Popping(ClientQueue, PopWant)
    case Process => if ResponsesSent(pc.r.kind) == 1 then Carrying(pc.r, LookWant) else Popping(TaskQueue, PopWant)
    case Look => if pc.r.client in s.table.items then Carrying(pc.r, GiveWant) else Popping(TaskQueue, PopWant)
    case Peek => Carrying(pc.r, GiveQueueWant(s.entries[pc.r.client].items == multiset{}))
    case Give(_) => Given(pc.r, pc.g.wasEmpty)
    case FinishGive(_) => Popping(TaskQueue, PopWant)
    case Fault => Faulted(pc.r)
    case Accept => Registering(s.nextClient, false)
    case Register => Offering(pc.c, false)
    case Offer(_) => Accepting
    case Stop => Shutting(QueueMutex(ClientQueue), false)
    case Shut =>
      if pc.m == QueueMutex(ClientQueue) then Shutting(QueueMutex(TaskQueue), false)
      else if pc.m == QueueMutex(TaskQueue) then Shutting(TableMutex, false)
      else Joining
    case Join => Stopped
  }

  /** The other threads: `queue_push` and `send_response` signal, closing broadcasts. */
  ghost function WokenThreads(s: State, t: Tid, a: Step): map<Tid, Pc>
    requires Enabled(s, t, a)
  {
    var pc := s.threads[t];
    match a
    case Submit(w) => if s.tasks.closed then s.threads else WakeOne(s.threads, NotEmpty(TaskQueue), w)
    case Give(w) =>
      if s.entries[pc.r.client].closed then s.threads else WakeOne(s.threads, EntryNotEmpty(pc.r.client), w)
    case FinishGive(w) => if pc.wasEmpty then WakeOne(s.threads, Available(pc.r.client), w) else s.threads
    case Offer(w) => if s.clients.closed then s.threads else WakeOne(s.threads, NotEmpty(ClientQueue), w)
    case CloseEntryQueue => WakeAll(s.threads, EntryNotEmpty(pc.c))
    case FinishClose => WakeAll(s.threads, Available(pc.c))
    case Shut => if pc.m.QueueMutex? then WakeAll(s.threads, NotEmpty(pc.m.q)) else s.threads
    case _ => s.threads
  }

  ghost function ThreadsAfter(s: State, t: Tid, a: Step): map<Tid, Pc>
    requires Enabled(s, t, a)
  {
    WokenThreads(s, t, a)[t := Target(s, t, a)]
  }

  /** A step other than `Acquire` unlocks what the thread holds before it and not after. */
  ghost function OwnerAfter(s: State, t: Tid, a: Step): map<Mutex, Tid>
    requires Enabled(s, t, a)
  {
    if a.Acquire? then s.owner[Wants(s.threads[t]).value := t]
    else map m | m in s.owner && !(Holds(s.threads[t], m) && !Holds(Target(s, t, a), m)) :: s.owner[m]
  }

  ghost function TasksAfter(s: State, t: Tid, a: Step): SharedQueue<Request>
    requires Enabled(s, t, a)
  {
    match a
    case Submit(_) =>
      if s.tasks.closed then s.tasks else s.tasks.(items := s.tasks.items + multiset{s.threads[t].r})
    case PopRequest(r) => s.tasks.(items := s.tasks.items - multiset{r})
    case Shut => if s.threads[t].m == QueueMutex(TaskQueue) then s.tasks.(closed := true) else s.tasks
    case _ => s.tasks
  }

  ghost function ClientsAfter(s: State, t: Tid, a: Step): SharedQueue<Cid>
    requires Enabled(s, t, a)
  {
    match a
    case Offer(_) =>
      if s.clients.closed then s.clients else s.clients.(items := s.clients.items + multiset{s.threads[t].c})
    case PopClient(c) => s.clients.(items := s.clients.items - multiset{c})
    case Shut => if s.threads[t].m == QueueMutex(ClientQueue) then s.clients.(closed := true) else s.clients
    case _ => s.clients
  }

  /** The response map: the ids of the registered entries. */
  ghost function TableAfter(s: State, t: Tid, a: Step): SharedQueue<Cid>
    requires Enabled(s, t, a)
  {
    match a
    case Register =>
      if s.table.closed then s.table else s.table.(items := s.table.items + multiset{s.threads[t].c})
    case Deregister => s.table.(items := s.table.items - multiset{s.threads[t].c})
    case Shut => if s.threads[t].m == TableMutex then s.table.(closed := true) else s.table
    case _ => s.table
  }

  ghost function EntriesAfter(s: State, t: Tid, a: Step): map<Cid, SharedQueue<Request>>
    requires Enabled(s, t, a)
  {
    var pc := s.threads[t];
    match a
    case Register => if s.table.closed then s.entries else s.entries[pc.c := SharedQueue(multiset{}, false)]
    case Take(x) =>
      var e := s.entries[pc.r.client];
      s.entries[pc.r.client := e.(items := e.items - multiset{x})]
    case Give(_) =>
      var e := s.entries[pc.r.client];
      if e.closed then s.entries else s.entries[pc.r.client := e.(items := e.items + multiset{pc.r})]
    case CloseEntryQueue => s.entries[pc.c := s.entries[pc.c].(closed := true)]
    case Destroy => s.entries - {pc.c}
    case _ => s.entries
  }

  /** The connection that the step moves on, and what it becomes. */
  ghost function NewConn(s: State, t: Tid, a: Step): Option<(Cid, Conn)>
    requires Enabled(s, t, a)
  {
    var pc := s.threads[t];
    match a
    case Accept => Some((s.nextClient, Fresh))
    case Register => Some((pc.c, Offered))
    case Offer(_) => if s.clients.closed then None else Some((pc.c, Pending))
    case PopClient(c) => Some((c, ServedBy(t)))
    case Deregister => if pc.c in s.table.items then Some((pc.c, ClosedBy(t))) else None
    case Destroy => Some((pc.c, Left))
    case _ => None
  }

  /** The request whose fate the step decides. */
  ghost function NewFate(s: State, t: Tid, a: Step): Option<(Request, Fate)>
    requires Enabled(s, t, a)
  {
    var pc := s.threads[t];
    match a
    case Submit(_) => Some((pc.r, if s.tasks.closed then Dropped else Queued))
    case PopRequest(r) => Some((r, Held(t)))
    case Process => if ResponsesSent(pc.r.kind) == 1 then None else Some((pc.r, Discarded))
    case Look => if pc.r.client in s.table.items then None else Some((pc.r, Discarded))
    case Give(_) => Some((pc.r, if s.entries[pc.r.client].closed then Discarded else Delivered))
    case Take(x) => Some((x, Consumed))
    case Fault => if pc.Carrying? then Some((pc.r, Discarded)) else None
    case _ => None
  }

  function Update<K, V>(m: map<K, V>, change: Option<(K, V)>): map<K, V> {
    match change
    case None => m
    case Some((k, v)) => m[k := v]
  }

  /** How many waits of `c` have ended without a response. */
  function Lost(s: State, c: Cid): nat {
    if c in s.lost then s.lost[c] else 0
  }

  ghost function LostAfter(s: State, t: Tid, a: Step): map<Cid, nat>
    requires Enabled(s, t, a)
  {
    var pc := s.threads[t];
    match a
    case Check =>
      var c := pc.r.client;
      if s.entries[c].items == multiset{} && pc.w.rc != InTime then s.lost[c := Lost(s, c) + 1] else s.lost
    case _ => s.lost
  }

  ghost function LogAfter(s: State, t: Tid, a: Step): map<Cid, seq<Wait>>
    requires Enabled(s, t, a)
  {
    var pc := s.threads[t];
    match a
    case Accept => s.log[s.nextClient := []]
    case Reply => s.log[pc.r.client := s.log[pc.r.client] + [Wait(pc.r, pc.answer)]]
    case _ => s.log
  }

  ghost function Post(s: State, t: Tid, a: Step): State
    requires Enabled(s, t, a)
  {
    State(s.role, ThreadsAfter(s, t, a), OwnerAfter(s, t, a), TasksAfter(s, t, a), ClientsAfter(s, t, a),
          TableAfter(s, t, a), EntriesAfter(s, t, a),
          if a.Accept? then s.nextClient + 1 else s.nextClient,
          if a.Read? && Pushable(a.kind) then s.nextRequest + 1 else s.nextRequest,
          Update(s.conn, NewConn(s, t, a)), Update(s.fate, NewFate(s, t, a)),
          if a.PopClient? then s.served + multiset{a.c} else s.served,
          if a.PopRequest? then s.popped + multiset{a.r} else s.popped,
          LostAfter(s, t, a), LogAfter(s, t, a))
  }

  // ---------- Runs ----------

  /** Thread 0 runs `main`; every other thread waits to pop its queue. */
  ghost predicate IsInit(s: State) {
    && s.role.Keys == s.threads.Keys
    && 0 in s.threads
    && (forall t :: t in s.threads ==>
          && (s.role[t] == MainRole <==> t == 0)
          && s.threads[t] == match s.role[t]
                             case MainRole => Accepting
                             case ClientRole => Popping(ClientQueue, PopWant)
                             case WorkerRole => Popping(TaskQueue, PopWant))
    && s == State(s.role, s.threads, map[], SharedQueue(multiset{}, false), SharedQueue(multiset{}, false),
                  SharedQueue(multiset{}, false), map[], 1, 0, map[], map[], multiset{}, multiset{}, map[], map[])
  }

  ghost predicate Next(s: State, s': State) {
    exists t: Tid, a: Step :: Enabled(s, t, a) && s' == Post(s, t, a)
  }

  ghost predicate IsRun(run: seq<State>) {
    && |run| > 0
    && IsInit(run[0])
    && forall i :: 0 < i < |run| ==> Next(run[i - 1], run[i])
  }

  ghost predicate Reachable(s: State) {
    exists run: seq<State> :: IsRun(run) && run[|run| - 1] == s
  }
}
