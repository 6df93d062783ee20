/**
 Concrete runs of the protocol with one client thread and one worker: what can happen once
 a wait has timed out.
 */
module ProtocolRuns {
  import opened Types
  import opened Protocol
  import opened ProtocolHistory
  import opened ProtocolSteps

  /** A command that is pushed to the workers. */
  predicate IsCommand(kind: CommandType) {
    kind != Unknown && kind != Quit
  }

  /** The k-th request of connection 1. */
  function Ask(k: nat, kind: CommandType): Request {
    Request(k, 1, kind)
  }

  /** The client's first wait, which timed out. */
  function GaveUp(kind: CommandType): Wait {
    Wait(Request(0, 1, kind), TimeoutLine)
  }

  /** Thread 0 runs main, thread 1 serves clients, thread 2 works. */
  ghost function Beginning(): State {
    State(map[0 := MainRole, 1 := ClientRole, 2 := WorkerRole],
          map[0 := Accepting, 1 := Popping(ClientQueue, PopWant), 2 := Popping(TaskQueue, PopWant)],
          map[], SharedQueue(multiset{}, false), SharedQueue(multiset{}, false), SharedQueue(multiset{}, false),
          map[], 1, 0, map[], map[], multiset{}, multiset{}, map[], map[])
  }

  /** Thread 1 serves connection 1, whose entry holds `responses`; main waits for the next. */
  ghost function Scene(client: Pc, worker: Pc, tasks: multiset<Request>, responses: multiset<Request>,
                       k: nat, log: seq<Wait>): State {
    State(map[0 := MainRole, 1 := ClientRole, 2 := WorkerRole], map[0 := Accepting, 1 := client, 2 := worker], map[],
          SharedQueue(tasks, false), SharedQueue(multiset{}, false), SharedQueue(multiset{1}, false),
          map[1 := SharedQueue(responses, false)], 2, k, map[], map[], multiset{}, multiset{}, map[], map[1 := log])
  }

  /** The pools may be of any size: each choice of roles with one main thread is a beginning. */
  lemma PoolsOfAnySize(role: map<Tid, Role>)
    requires 0 in role && forall t :: t in role ==> (role[t] == MainRole <==> t == 0)
    ensures exists s :: Reachable(s) && s.role == role && s.threads.Keys == role.Keys
  {
    var s := Beginning().(role := role,
                          threads := map t | t in role :: match role[t]
                                                          case MainRole => Accepting
                                                          case ClientRole => Popping(ClientQueue, PopWant)
                                                          case WorkerRole => Popping(TaskQueue, PopWant));
    assert s.threads.Keys == role.Keys;
    assert IsInit(s);
    assert IsRun([s]) && [s][|[s]| - 1] == s;
  }

  /** A closed set that holds the beginning. */
  ghost predicate Starts(reach: iset<State>) {
    Closed(reach) && Beginning() in reach
  }

  lemma ReachedStarts()
    ensures Starts(iset c | Reached(c))
  {
    var s := Beginning();
    assert IsInit(s);
    assert IsRun([s]) && [s][|[s]| - 1] == s;
    assert Core(s) == s;
    ReachedIsClosed();
  }

  lemma ClientMoves(main: Pc, client: Pc, worker: Pc, client': Pc)
    ensures var th: map<Tid, Pc> := map[0 := main, 1 := client, 2 := worker];
            th[1 := client'] == map[0 := main, 1 := client', 2 := worker]
  {
  }

  lemma WorkerMoves(main: Pc, client: Pc, worker: Pc, worker': Pc)
    ensures var th: map<Tid, Pc> := map[0 := main, 1 := client, 2 := worker];
            th[2 := worker'] == map[0 := main, 1 := client, 2 := worker']
  {
  }

  // ---------- Parts of runs ----------

  /** A command is read and pushed, the worker being awake. */
  lemma Pushed(reach: iset<State>, before: State, worker: Pc, k: nat, kind: CommandType, log: seq<Wait>)
    returns (c: State)
    requires Within(reach, before) && Asleep(worker) == None && IsCommand(kind)
    requires before == Scene(Reading(1), worker, multiset{}, multiset{}, k, log)
    ensures Within(reach, c)
    ensures c == Scene(Awaiting(Ask(k, kind), FindWant), worker, multiset{Ask(k, kind)}, multiset{}, k + 1, log)
  {
    c := Asks(reach, before, 1, 1, kind);
    ClientMoves(Accepting, Reading(1), worker, Pushing(Ask(k, kind), false));
    c := Locks(reach, c, 1, Pushing(Ask(k, kind), false), QueueMutex(TaskQueue));
    ClientMoves(Accepting, Pushing(Ask(k, kind), false), worker, Pushing(Ask(k, kind), true));
    c := Submits(reach, c, 1, Ask(k, kind));
    ClientMoves(Accepting, Pushing(Ask(k, kind), true), worker, Awaiting(Ask(k, kind), FindWant));
  }

  /** The client finds its entry, which is empty, and sleeps. */
  lemma Waited(reach: iset<State>, before: State, worker: Pc, r: Request, tasks: multiset<Request>,
               k: nat, log: seq<Wait>)
    returns (c: State)
    requires Within(reach, before) && r.client == 1
    requires before == Scene(Awaiting(r, FindWant), worker, tasks, multiset{}, k, log)
    ensures Within(reach, c) && c == Scene(Awaiting(r, WaitSleep), worker, tasks, multiset{}, k, log)
  {
    c := Locks(reach, before, 1, Awaiting(r, FindWant), TableMutex);
    ClientMoves(Accepting, Awaiting(r, FindWant), worker, Awaiting(r, FindHold));
    c := Finds(reach, c, 1, r);
    ClientMoves(Accepting, Awaiting(r, FindHold), worker, Awaiting(r, LockWant(InTime)));
    c := Locks(reach, c, 1, Awaiting(r, LockWant(InTime)), EntryMutex(1));
    ClientMoves(Accepting, Awaiting(r, LockWant(InTime)), worker, Awaiting(r, LockHold(InTime)));
    c := Sleeps(reach, c, 1, r);
    ClientMoves(Accepting, Awaiting(r, LockHold(InTime)), worker, Awaiting(r, WaitSleep));
  }

  /** The worker takes the only request and looks up the entry. */
  lemma LooksUp(reach: iset<State>, before: State, client: Pc, p: PopPc, r: Request, k: nat, log: seq<Wait>)
    returns (c: State)
    requires Within(reach, before) && r.client == 1 && IsCommand(r.kind) && (p == PopWant || p == PopWoken)
    requires before == Scene(client, Popping(TaskQueue, p), multiset{r}, multiset{}, k, log)
    ensures Within(reach, c) && c == Scene(client, Carrying(r, GiveWant), multiset{}, multiset{}, k, log)
  {
    c := Locks(reach, before, 2, Popping(TaskQueue, p), QueueMutex(TaskQueue));
    WorkerMoves(Accepting, client, Popping(TaskQueue, p), Popping(TaskQueue, PopHold));
    c := PopsRequest(reach, c, 2, r);
    WorkerMoves(Accepting, client, Popping(TaskQueue, PopHold), Carrying(r, Working));
    c := Processes(reach, c, 2, r);
    WorkerMoves(Accepting, client, Carrying(r, Working), Carrying(r, LookWant));
    c := Locks(reach, c, 2, Carrying(r, LookWant), TableMutex);
    WorkerMoves(Accepting, client, Carrying(r, LookWant), Carrying(r, LookHold));
    c := Looks(reach, c, 2, r);
    WorkerMoves(Accepting, client, Carrying(r, LookHold), Carrying(r, GiveWant));
  }

  lemma Entered(reach: iset<State>, before: State, client: Pc, r: Request, tasks: multiset<Request>,
                k: nat, log: seq<Wait>)
    returns (c: State)
    requires Within(reach, before) && r.client == 1
    requires before == Scene(client, Carrying(r, GiveWant), tasks, multiset{}, k, log)
    ensures Within(reach, c)
    ensures c == Scene(client, Carrying(r, GiveQueueHold(true)), tasks, multiset{}, k, log)
                   .(owner := map[EntryMutex(1) := 2, EntryQueueMutex(1) := 2])
  {
    c := Locks(reach, before, 2, Carrying(r, GiveWant), EntryMutex(1));
    WorkerMoves(Accepting, client, Carrying(r, GiveWant), Carrying(r, GiveHold));
    c := Peeks(reach, c, 2, r);
    WorkerMoves(Accepting, client, Carrying(r, GiveHold), Carrying(r, GiveQueueWant(true)));
    c := Locks(reach, c, 2, Carrying(r, GiveQueueWant(true)), EntryQueueMutex(1));
    WorkerMoves(Accepting, client, Carrying(r, GiveQueueWant(true)), Carrying(r, GiveQueueHold(true)));
  }

  /** The worker pushes the response to an empty entry and signals the client that sleeps on it. */
  lemma Delivered(reach: iset<State>, before: State, x: Request, r: Request, tasks: multiset<Request>,
                  k: nat, log: seq<Wait>)
    returns (c: State)
    requires Within(reach, before) && r.client == 1 && x.client == 1
    requires before == Scene(Awaiting(x, WaitSleep), Carrying(r, GiveWant), tasks, multiset{}, k, log)
    ensures Within(reach, c)
    ensures c == Scene(Awaiting(x, LockWant(InTime)), Popping(TaskQueue, PopWant), tasks, multiset{r}, k, log)
  {
    c := Entered(reach, before, Awaiting(x, WaitSleep), r, tasks, k, log);
    c := Gives(reach, c, 2, r, true);
    WorkerMoves(Accepting, Awaiting(x, WaitSleep), Carrying(r, GiveQueueHold(true)), Given(r, true));
    assert multiset{} + multiset{r} == multiset{r};
    c := Signals(reach, c, 2, r, 1, x);
    ClientMoves(Accepting, Awaiting(x, WaitSleep), Given(r, true), Awaiting(x, LockWant(InTime)));
    WorkerMoves(Accepting, Awaiting(x, LockWant(InTime)), Given(r, true), Popping(TaskQueue, PopWant));
  }

  /** The client takes the response and answers with it. */
  lemma Taken(reach: iset<State>, before: State, x: Request, r: Request, worker: Pc, tasks: multiset<Request>,
              k: nat, log: seq<Wait>)
    returns (c: State)
    requires Within(reach, before) && x.client == 1
    requires before == Scene(Awaiting(x, LockWant(InTime)), worker, tasks, multiset{r}, k, log)
    ensures Within(reach, c)
    ensures c == Scene(Reading(1), worker, tasks, multiset{}, k, log + [Wait(x, Answered(r))])
  {
    c := Locks(reach, before, 1, Awaiting(x, LockWant(InTime)), EntryMutex(1));
    ClientMoves(Accepting, Awaiting(x, LockWant(InTime)), worker, Awaiting(x, LockHold(InTime)));
    c := FindsResponse(reach, c, 1, x, InTime);
    ClientMoves(Accepting, Awaiting(x, LockHold(InTime)), worker, Awaiting(x, TakeWant));
    c := Locks(reach, c, 1, Awaiting(x, TakeWant), EntryQueueMutex(1));
    ClientMoves(Accepting, Awaiting(x, TakeWant), worker, Awaiting(x, TakeHold));
    c := Takes(reach, c, 1, x, r);
    assert multiset{r} - multiset{r} == multiset{};
    ClientMoves(Accepting, Awaiting(x, TakeHold), worker, Answering(x, Answered(r), true));
    c := Unlocks(reach, c, 1, x, Answered(r));
    ClientMoves(Accepting, Answering(x, Answered(r), true), worker, Answering(x, Answered(r), false));
    c := Replies(reach, c, 1, x, Answered(r));
    ClientMoves(Accepting, Answering(x, Answered(r), false), worker, Reading(1));
  }

  lemma Unlisted(reach: iset<State>, before: State, worker: Pc, k: nat, log: seq<Wait>) returns (c: State)
    requires Within(reach, before) && Asleep(worker) == None
    requires before == Scene(Reading(1), worker, multiset{}, multiset{}, k, log)
    ensures Within(reach, c)
    ensures c == Scene(Closing(1, CloseQueueHold), worker, multiset{}, multiset{}, k, log)
                   .(table := SharedQueue(multiset{}, false), owner := map[EntryMutex(1) := 1, EntryQueueMutex(1) := 1])
  {
    c := Quits(reach, before, 1, 1);
    ClientMoves(Accepting, Reading(1), worker, Deregistering(1, false));
    c := Locks(reach, c, 1, Deregistering(1, false), TableMutex);
    ClientMoves(Accepting, Deregistering(1, false), worker, Deregistering(1, true));
    c := Unlists(reach, c, 1, 1);
    assert multiset{1} - multiset{1} == multiset{};
    ClientMoves(Accepting, Deregistering(1, true), worker, Closing(1, CloseWant));
    c := Locks(reach, c, 1, Closing(1, CloseWant), EntryMutex(1));
    ClientMoves(Accepting, Closing(1, CloseWant), worker, Closing(1, CloseHold));
    c := Locks(reach, c, 1, Closing(1, CloseHold), EntryQueueMutex(1));
    ClientMoves(Accepting, Closing(1, CloseHold), worker, Closing(1, CloseQueueHold));
  }

  /** The client quits, and its entry is destroyed. */
  lemma Departed(reach: iset<State>, before: State, worker: Pc, k: nat, log: seq<Wait>) returns (c: State)
    requires Within(reach, before) && Asleep(worker) == None
    requires before == Scene(Reading(1), worker, multiset{}, multiset{}, k, log)
    ensures Within(reach, c)
    ensures c == Scene(Popping(ClientQueue, PopWant), worker, multiset{}, multiset{}, k, log)
                   .(table := SharedQueue(multiset{}, false), entries := map[])
  {
    c := Unlisted(reach, before, worker, k, log);
    c := ClosesQueue(reach, c, 1, 1);
    ClientMoves(Accepting, Closing(1, CloseQueueHold), worker, Closing(1, CloseDone));
    c := ClosesEntry(reach, c, 1, 1);
    ClientMoves(Accepting, Closing(1, CloseDone), worker, Closing(1, Destroying));
    c := Destroys(reach, c, 1, 1);
    ClientMoves(Accepting, Closing(1, Destroying), worker, Popping(ClientQueue, PopWant));
    assert c.entries == map[];
  }

  // ---------- A request of each kind ----------

  /** Both pools are asleep before the first connection comes. */
  lemma BothAsleep(reach: iset<State>) returns (c: State)
    requires Starts(reach)
    ensures Within(reach, c)
    ensures c == Beginning().(threads := map[0 := Accepting, 1 := Popping(ClientQueue, PopSleep),
                                             2 := Popping(TaskQueue, PopSleep)])
  {
    c := Locks(reach, Beginning(), 1, Popping(ClientQueue, PopWant), QueueMutex(ClientQueue));
    c := FallsAsleep(reach, c, 1, ClientQueue);
    c := Locks(reach, c, 2, Popping(TaskQueue, PopWant), QueueMutex(TaskQueue));
    c := FallsAsleep(reach, c, 2, TaskQueue);
    assert c.threads == map[0 := Accepting, 1 := Popping(ClientQueue, PopSleep), 2 := Popping(TaskQueue, PopSleep)];
  }

  /** The connection is registered, and offering it wakes the client thread. */
  lemma WokenToServe(reach: iset<State>) returns (c: State)
    requires Starts(reach)
    ensures Within(reach, c)
    ensures c == Scene(Popping(ClientQueue, PopWoken), Popping(TaskQueue, PopSleep), multiset{}, multiset{}, 0, [])
                   .(clients := SharedQueue(multiset{1}, false))
  {
    c := BothAsleep(reach);
    c := Accepts(reach, c, 0);
    c := Locks(reach, c, 0, Registering(1, false), TableMutex);
    c := Registers(reach, c, 0, 1);
    c := Locks(reach, c, 0, Offering(1, false), QueueMutex(ClientQueue));
    c := OffersTo(reach, c, 0, 1, 1);
    assert c.threads == map[0 := Accepting, 1 := Popping(ClientQueue, PopWoken), 2 := Popping(TaskQueue, PopSleep)];
  }

  /** The client pushes a request of the kind that it read, and the push wakes the worker. */
  lemma WokenToWork(reach: iset<State>, kind: CommandType) returns (c: State)
    requires Starts(reach) && IsCommand(kind)
    ensures Within(reach, c)
    ensures c == Scene(Awaiting(Ask(0, kind), FindWant), Popping(TaskQueue, PopWoken), multiset{Ask(0, kind)},
                       multiset{}, 1, [])
  {
    c := WokenToServe(reach);
    c := Locks(reach, c, 1, Popping(ClientQueue, PopWoken), QueueMutex(ClientQueue));
    c := PopsClient(reach, c, 1, 1);
    c := Asks(reach, c, 1, 1, kind);
    c := Locks(reach, c, 1, Pushing(Ask(0, kind), false), QueueMutex(TaskQueue));
    c := SubmitsTo(reach, c, 1, Ask(0, kind), 2);
    assert c.threads == map[0 := Accepting, 1 := Awaiting(Ask(0, kind), FindWant), 2 := Popping(TaskQueue, PopWoken)];
  }

  lemma Replied(reach: iset<State>, kind: CommandType) returns (c: State)
    requires Starts(reach) && IsCommand(kind)
    ensures Within(reach, c)
    ensures c == Scene(Reading(1), Popping(TaskQueue, PopWant), multiset{}, multiset{}, 1,
                       [Wait(Ask(0, kind), Answered(Ask(0, kind)))])
  {
    var r := Ask(0, kind);
    c := WokenToWork(reach, kind);
    c := Waited(reach, c, Popping(TaskQueue, PopWoken), r, multiset{r}, 1, []);
    c := LooksUp(reach, c, Awaiting(r, WaitSleep), PopWoken, r, 1, []);
    c := Delivered(reach, c, r, r, multiset{}, 1, []);
    c := Taken(reach, c, r, r, Popping(TaskQueue, PopWant), multiset{}, 1, []);
    assert [] + [Wait(r, Answered(r))] == [Wait(r, Answered(r))];
  }

  /** Whatever command the first line of a connection is, it can be answered with its own response. */
  lemma EachKindIsAnswered(kind: CommandType) returns (s: State)
    requires IsCommand(kind)
    ensures Reachable(s)
    ensures s.log == map[1 := [Wait(Request(0, 1, kind), Answered(Request(0, 1, kind)))]]
  {
    ReachedStarts();
    var c := Replied((iset c | Reached(c)), kind);
    s :| Reachable(s) && Core(s) == c;
  }

  // ---------- The shutdown ----------

  /** A connection has come and gone; the worker sleeps. */
  lemma Quiet(reach: iset<State>, kind: CommandType) returns (c: State)
    requires Starts(reach) && IsCommand(kind)
    ensures Within(reach, c) && c.owner == map[] && c.tasks == SharedQueue(multiset{}, false)
    ensures c.clients == SharedQueue(multiset{}, false) && !c.table.closed
    ensures c.threads == map[0 := Accepting, 1 := Popping(ClientQueue, PopWant), 2 := Popping(TaskQueue, PopSleep)]
  {
    c := Replied(reach, kind);
    c := Departed(reach, c, Popping(TaskQueue, PopWant), 1, [Wait(Ask(0, kind), Answered(Ask(0, kind)))]);
    c := Locks(reach, c, 2, Popping(TaskQueue, PopWant), QueueMutex(TaskQueue));
    c := FallsAsleep(reach, c, 2, TaskQueue);
    assert c.threads == map[0 := Accepting, 1 := Popping(ClientQueue, PopWant), 2 := Popping(TaskQueue, PopSleep)];
  }

  lemma ClientsClosed(reach: iset<State>, kind: CommandType) returns (c: State)
    requires Starts(reach) && IsCommand(kind)
    ensures Within(reach, c) && c.owner == map[] && c.tasks == SharedQueue(multiset{}, false)
    ensures c.clients == SharedQueue(multiset{}, true) && !c.table.closed
    ensures c.threads == map[0 := Shutting(QueueMutex(TaskQueue), false), 1 := Popping(ClientQueue, PopWant),
                             2 := Popping(TaskQueue, PopSleep)]
  {
    c := Quiet(reach, kind);
    c := Stops(reach, c, 0);
    c := Locks(reach, c, 0, Shutting(QueueMutex(ClientQueue), false), QueueMutex(ClientQueue));
    assert WakeAll(c.threads, NotEmpty(ClientQueue)) == c.threads;
    c := ClosesClients(reach, c, 0);
    assert c.threads == map[0 := Shutting(QueueMutex(TaskQueue), false), 1 := Popping(ClientQueue, PopWant),
                            2 := Popping(TaskQueue, PopSleep)];
  }

  /** Closing the task queue wakes the worker. */
  lemma TasksClosed(reach: iset<State>, kind: CommandType) returns (c: State)
    requires Starts(reach) && IsCommand(kind)
    ensures Within(reach, c) && c.owner == map[] && c.tasks == SharedQueue(multiset{}, true)
    ensures c.clients == SharedQueue(multiset{}, true) && !c.table.closed
    ensures c.threads == map[0 := Shutting(TableMutex, false), 1 := Popping(ClientQueue, PopWant),
                             2 := Popping(TaskQueue, PopWoken)]
  {
    c := ClientsClosed(reach, kind);
    c := Locks(reach, c, 0, Shutting(QueueMutex(TaskQueue), false), QueueMutex(TaskQueue));
    assert WakeAll(c.threads, NotEmpty(TaskQueue)) == c.threads[2 := Popping(TaskQueue, PopWoken)];
    c := ClosesTasks(reach, c, 0);
    assert c.threads == map[0 := Shutting(TableMutex, false), 1 := Popping(ClientQueue, PopWant),
                            2 := Popping(TaskQueue, PopWoken)];
  }

  lemma QueuesClosed(reach: iset<State>, kind: CommandType) returns (c: State)
    requires Starts(reach) && IsCommand(kind)
    ensures Within(reach, c) && c.owner == map[] && c.tasks == SharedQueue(multiset{}, true)
    ensures c.clients == SharedQueue(multiset{}, true) && c.table.closed
    ensures c.threads == map[0 := Joining, 1 := Popping(ClientQueue, PopWant), 2 := Popping(TaskQueue, PopWoken)]
  {
    c := TasksClosed(reach, kind);
    c := Locks(reach, c, 0, Shutting(TableMutex, false), TableMutex);
    c := ClosesTable(reach, c, 0);
    assert c.threads == map[0 := Joining, 1 := Popping(ClientQueue, PopWant), 2 := Popping(TaskQueue, PopWoken)];
  }

  lemma Joined(reach: iset<State>, kind: CommandType) returns (c: State)
    requires Starts(reach) && IsCommand(kind)
    ensures Within(reach, c) && c.threads == map[0 := Stopped, 1 := Exited(ClientQueue), 2 := Exited(TaskQueue)]
  {
    c := QueuesClosed(reach, kind);
    c := Locks(reach, c, 1, Popping(ClientQueue, PopWant), QueueMutex(ClientQueue));
    c := LeavesQueue(reach, c, 1, ClientQueue);
    c := Locks(reach, c, 2, Popping(TaskQueue, PopWoken), QueueMutex(TaskQueue));
    c := LeavesQueue(reach, c, 2, TaskQueue);
    c := Joins(reach, c, 0);
    assert c.threads == map[0 := Stopped, 1 := Exited(ClientQueue), 2 := Exited(TaskQueue)];
  }

  /** The server can serve a request, shut down and end, every thread joined. */
  lemma ShutsDown(kind: CommandType) returns (s: State)
    requires IsCommand(kind)
    ensures Reachable(s)
    ensures s.threads == map[0 := Stopped, 1 := Exited(ClientQueue), 2 := Exited(TaskQueue)]
  {
    ReachedStarts();
    var c := Joined((iset c | Reached(c)), kind);
    s :| Reachable(s) && Core(s) == c;
  }

  // ---------- A wait that times out ----------

  lemma Registered(reach: iset<State>) returns (c: State)
    requires Starts(reach)
    ensures Within(reach, c)
    ensures c == Beginning().(threads := Beginning().threads[0 := Offering(1, false)], nextClient := 2,
                              table := SharedQueue(multiset{1}, false),
                              entries := map[1 := SharedQueue(multiset{}, false)], log := map[1 := []])
  {
    c := Accepts(reach, Beginning(), 0);
    c := Locks(reach, c, 0, Registering(1, false), TableMutex);
    c := Registers(reach, c, 0, 1);
    assert c.threads == Beginning().threads[0 := Offering(1, false)];
  }

  lemma Served(reach: iset<State>) returns (c: State)
    requires Starts(reach)
    ensures Within(reach, c) && c == Scene(Reading(1), Popping(TaskQueue, PopWant), multiset{}, multiset{}, 0, [])
  {
    c := Registered(reach);
    c := Locks(reach, c, 0, Offering(1, false), QueueMutex(ClientQueue));
    c := Offers(reach, c, 0, 1);
    c := Locks(reach, c, 1, Popping(ClientQueue, PopWant), QueueMutex(ClientQueue));
    c := PopsClient(reach, c, 1, 1);
    assert c.threads == map[0 := Accepting, 1 := Reading(1), 2 := Popping(TaskQueue, PopWant)];
  }

  lemma Slept(reach: iset<State>, kind: CommandType) returns (c: State)
    requires Starts(reach) && IsCommand(kind)
    ensures Within(reach, c)
    ensures c == Scene(Awaiting(Ask(0, kind), WaitSleep), Popping(TaskQueue, PopWant), multiset{Ask(0, kind)}, multiset{},
                       1, [])
  {
    var r := Ask(0, kind);
    c := Served(reach);
    c := Pushed(reach, c, Popping(TaskQueue, PopWant), 0, kind, []);
    c := Waited(reach, c, Popping(TaskQueue, PopWant), r, multiset{r}, 1, []);
  }

  /** The wait for the first request times out. */
  lemma TimedOutOnce(reach: iset<State>, kind: CommandType) returns (c: State)
    requires Starts(reach) && IsCommand(kind)
    ensures Within(reach, c)
    ensures c == Scene(Reading(1), Popping(TaskQueue, PopWant), multiset{Ask(0, kind)}, multiset{}, 1, [GaveUp(kind)])
  {
    var r := Ask(0, kind);
    c := Slept(reach, kind);
    c := Expires(reach, c, 1, r, TimedOut);
    c := Locks(reach, c, 1, Awaiting(r, LockWant(TimedOut)), EntryMutex(1));
    c := GivesUp(reach, c, 1, r);
    c := Replies(reach, c, 1, r, TimeoutLine);
    assert c.threads == map[0 := Accepting, 1 := Reading(1), 2 := Popping(TaskQueue, PopWant)];
    assert [] + [GaveUp(kind)] == [GaveUp(kind)];
  }

  /** Only now the worker takes the request up, and looks up the entry. */
  lemma LookedUp(reach: iset<State>, kind: CommandType) returns (c: State)
    requires Starts(reach) && IsCommand(kind)
    ensures Within(reach, c)
    ensures c == Scene(Reading(1), Carrying(Ask(0, kind), GiveWant), multiset{}, multiset{}, 1, [GaveUp(kind)])
  {
    c := TimedOutOnce(reach, kind);
    c := LooksUp(reach, c, Reading(1), PopWant, Ask(0, kind), 1, [GaveUp(kind)]);
  }

  lemma UsedAfter(reach: iset<State>, kind: CommandType) returns (c: State)
    requires Starts(reach) && IsCommand(kind)
    ensures c in reach && At(c, 2, Faulted(Ask(0, kind))) && 1 !in c.entries && c.log == map[1 := [GaveUp(kind)]]
  {
    c := LookedUp(reach, kind);
    c := Departed(reach, c, Carrying(Ask(0, kind), GiveWant), 1, [GaveUp(kind)]);
    c := Faults(reach, c, 2, Ask(0, kind), GiveWant);
  }

  /** The client quits, and a worker that looked up its entry before goes on to use it. */
  lemma UseAfterFree(kind: CommandType) returns (s: State)
    requires IsCommand(kind)
    ensures Reachable(s) && At(s, 2, Faulted(Ask(0, kind))) && 1 !in s.entries && s.log == map[1 := [GaveUp(kind)]]
  {
    ReachedStarts();
    var c := UsedAfter((iset c | Reached(c)), kind);
    s :| Reachable(s) && Core(s) == c;
  }

  /** The client asks again instead, and the worker delivers its late response. */
  lemma AnsweredLate(reach: iset<State>, kind: CommandType) returns (c: State)
    requires Starts(reach) && IsCommand(kind)
    ensures c in reach && c.log == map[1 := [GaveUp(kind), Wait(Ask(1, kind), Answered(Ask(0, kind)))]]
  {
    var r, x, log := Ask(0, kind), Ask(1, kind), [GaveUp(kind)];
    c := LookedUp(reach, kind);
    c := Pushed(reach, c, Carrying(r, GiveWant), 1, kind, log);
    c := Waited(reach, c, Carrying(r, GiveWant), x, multiset{x}, 2, log);
    c := Delivered(reach, c, x, r, multiset{x}, 2, log);
    c := Taken(reach, c, x, r, Popping(TaskQueue, PopWant), multiset{x}, 2, log);
    assert log + [Wait(x, Answered(r))] == [GaveUp(kind), Wait(x, Answered(r))];
  }

  /** The second request is answered with the response to the first. */
  lemma StaleReply(kind: CommandType) returns (s: State)
    requires IsCommand(kind)
    ensures Reachable(s) && s.log == map[1 := [GaveUp(kind), Wait(Ask(1, kind), Answered(Ask(0, kind)))]]
  {
    ReachedStarts();
    var c := AnsweredLate((iset c | Reached(c)), kind);
    s :| Reachable(s) && Core(s) == c;
  }
}
