/**
 What single steps make of a state, history aside; each is stated for any set of states
 that steps do not leave.
 */
module ProtocolSteps {
  import opened Types
  import opened Protocol
  import opened ProtocolHistory

  /** A step that gives up the only mutex that is taken. */
  lemma Freed(s: State, t: Tid, a: Step, m: Mutex)
    requires Enabled(s, t, a) && !a.Acquire? && s.owner == map[m := t]
    requires Holds(s.threads[t], m) && !Holds(Target(s, t, a), m)
    ensures OwnerAfter(s, t, a) == map[]
  {
  }

  /** A step that gives up the second of two. */
  lemma FreedInner(s: State, t: Tid, a: Step, m: Mutex, n: Mutex)
    requires Enabled(s, t, a) && !a.Acquire? && m != n && s.owner == map[m := t, n := t]
    requires Holds(Target(s, t, a), m) && Holds(s.threads[t], n) && !Holds(Target(s, t, a), n)
    ensures OwnerAfter(s, t, a) == map[m := t]
  {
  }

  lemma FreedNone(s: State, t: Tid, a: Step)
    requires Enabled(s, t, a) && !a.Acquire?
    requires forall m :: Holds(s.threads[t], m) ==> Holds(Target(s, t, a), m)
    ensures OwnerAfter(s, t, a) == s.owner
  {
  }

  predicate At(s: State, t: Tid, pc: Pc) {
    t in s.threads && s.threads[t] == pc
  }

  predicate AllAwake(s: State) {
    forall u :: u in s.threads ==> Asleep(s.threads[u]) == None
  }

  lemma Locks(reach: iset<State>, c: State, t: Tid, pc: Pc, m: Mutex) returns (c': State)
    requires Within(reach, c) && At(c, t, pc)
    requires Wants(pc) == Some(m) && m !in c.owner
    ensures c' == c.(threads := c.threads[t := Granted(pc)], owner := c.owner[m := t])
    ensures Within(reach, c')
  {
    c' := Core(Post(c, t, Acquire));
    assert Becomes(c, t, Acquire, c');
  }

  lemma Accepts(reach: iset<State>, c: State, t: Tid) returns (c': State)
    requires Within(reach, c) && At(c, t, Accepting)
    ensures c' == c.(threads := c.threads[t := Registering(c.nextClient, false)],
                     nextClient := c.nextClient + 1, log := c.log[c.nextClient := []])
    ensures Within(reach, c')
  {
    c' := Core(Post(c, t, Accept));
    FreedNone(c, t, Accept);
    assert Becomes(c, t, Accept, c');
  }

  lemma Registers(reach: iset<State>, c: State, t: Tid, n: Cid) returns (c': State)
    requires Within(reach, c) && At(c, t, Registering(n, true)) && c.owner == map[TableMutex := t]
    requires !c.table.closed
    ensures c' == c.(threads := c.threads[t := Offering(n, false)], owner := map[],
                     table := SharedQueue(c.table.items + multiset{n}, false),
                     entries := c.entries[n := SharedQueue(multiset{}, false)])
    ensures Within(reach, c')
  {
    c' := Core(Post(c, t, Register));
    Freed(c, t, Register, TableMutex);
    assert Becomes(c, t, Register, c');
  }

  lemma Offers(reach: iset<State>, c: State, t: Tid, n: Cid) returns (c': State)
    requires Within(reach, c) && At(c, t, Offering(n, true)) && c.owner == map[QueueMutex(ClientQueue) := t]
    requires !c.clients.closed && AllAwake(c)
    ensures c' == c.(threads := c.threads[t := Accepting], owner := map[],
                     clients := SharedQueue(c.clients.items + multiset{n}, false))
    ensures Within(reach, c')
  {
    c' := Core(Post(c, t, Offer(None)));
    Freed(c, t, Offer(None), QueueMutex(ClientQueue));
    assert Becomes(c, t, Offer(None), c');
  }

  lemma OffersTo(reach: iset<State>, c: State, t: Tid, n: Cid, u: Tid) returns (c': State)
    requires Within(reach, c) && At(c, t, Offering(n, true)) && c.owner == map[QueueMutex(ClientQueue) := t]
    requires !c.clients.closed && u != t && At(c, u, Popping(ClientQueue, PopSleep))
    ensures c' == c.(threads := c.threads[u := Popping(ClientQueue, PopWoken)][t := Accepting], owner := map[],
                     clients := SharedQueue(c.clients.items + multiset{n}, false))
    ensures Within(reach, c')
  {
    c' := Core(Post(c, t, Offer(Some(u))));
    Freed(c, t, Offer(Some(u)), QueueMutex(ClientQueue));
    assert Becomes(c, t, Offer(Some(u)), c');
  }

  lemma PopsClient(reach: iset<State>, c: State, t: Tid, n: Cid) returns (c': State)
    requires Within(reach, c) && At(c, t, Popping(ClientQueue, PopHold)) && c.owner == map[QueueMutex(ClientQueue) := t]
    requires n in c.clients.items
    ensures c' == c.(threads := c.threads[t := Reading(n)], owner := map[],
                     clients := SharedQueue(c.clients.items - multiset{n}, c.clients.closed))
    ensures Within(reach, c')
  {
    c' := Core(Post(c, t, PopClient(n)));
    Freed(c, t, PopClient(n), QueueMutex(ClientQueue));
    assert Becomes(c, t, PopClient(n), c');
  }

  /** Every line that begins with a command but QUIT becomes a request. */
  lemma Asks(reach: iset<State>, c: State, t: Tid, n: Cid, kind: CommandType) returns (c': State)
    requires Within(reach, c) && At(c, t, Reading(n))
    requires kind != Unknown && kind != Quit
    ensures c' == c.(threads := c.threads[t := Pushing(Request(c.nextRequest, n, kind), false)],
                     nextRequest := c.nextRequest + 1)
    ensures Within(reach, c')
  {
    c' := Core(Post(c, t, Read(kind)));
    FreedNone(c, t, Read(kind));
    assert Becomes(c, t, Read(kind), c');
  }

  /** A line that begins with no command changes nothing: the connection is served on. */
  lemma Ignores(reach: iset<State>, c: State, t: Tid, n: Cid) returns (c': State)
    requires Within(reach, c) && At(c, t, Reading(n))
    ensures c' == c
    ensures Within(reach, c')
  {
    c' := Core(Post(c, t, Read(Unknown)));
    FreedNone(c, t, Read(Unknown));
    assert Becomes(c, t, Read(Unknown), c');
  }

  /** A sleeper may wake at any time without being signalled. */
  lemma WakesInQueue(reach: iset<State>, c: State, t: Tid, q: QueueId) returns (c': State)
    requires Within(reach, c) && At(c, t, Popping(q, PopSleep))
    ensures c' == c.(threads := c.threads[t := Popping(q, PopWoken)])
    ensures Within(reach, c')
  {
    c' := Core(Post(c, t, WakeSpuriously));
    FreedNone(c, t, WakeSpuriously);
    assert Becomes(c, t, WakeSpuriously, c');
  }

  lemma WakesOnEntry(reach: iset<State>, c: State, t: Tid, r: Request) returns (c': State)
    requires Within(reach, c) && At(c, t, Awaiting(r, WaitSleep))
    ensures c' == c.(threads := c.threads[t := Awaiting(r, LockWant(InTime))])
    ensures Within(reach, c')
  {
    c' := Core(Post(c, t, WakeSpuriously));
    FreedNone(c, t, WakeSpuriously);
    assert Becomes(c, t, WakeSpuriously, c');
  }

  lemma FallsAsleep(reach: iset<State>, c: State, t: Tid, q: QueueId) returns (c': State)
    requires Within(reach, c) && At(c, t, Popping(q, PopHold)) && c.owner == map[QueueMutex(q) := t]
    requires QueueSize(c, q) == 0 && !IsClosed(c, q)
    ensures c' == c.(threads := c.threads[t := Popping(q, PopSleep)], owner := map[])
    ensures Within(reach, c')
  {
    c' := Core(Post(c, t, PopNothing));
    Freed(c, t, PopNothing, QueueMutex(q));
    assert Becomes(c, t, PopNothing, c');
  }

  lemma LeavesQueue(reach: iset<State>, c: State, t: Tid, q: QueueId) returns (c': State)
    requires Within(reach, c) && At(c, t, Popping(q, PopHold)) && c.owner == map[QueueMutex(q) := t]
    requires QueueSize(c, q) == 0 && IsClosed(c, q)
    ensures c' == c.(threads := c.threads[t := Exited(q)], owner := map[])
    ensures Within(reach, c')
  {
    c' := Core(Post(c, t, PopNothing));
    Freed(c, t, PopNothing, QueueMutex(q));
    assert Becomes(c, t, PopNothing, c');
  }

  lemma Submits(reach: iset<State>, c: State, t: Tid, r: Request) returns (c': State)
    requires Within(reach, c) && At(c, t, Pushing(r, true)) && c.owner == map[QueueMutex(TaskQueue) := t]
    requires !c.tasks.closed && AllAwake(c)
    ensures c' == c.(threads := c.threads[t := Awaiting(r, FindWant)], owner := map[],
                     tasks := SharedQueue(c.tasks.items + multiset{r}, false))
    ensures Within(reach, c')
  {
    c' := Core(Post(c, t, Submit(None)));
    Freed(c, t, Submit(None), QueueMutex(TaskQueue));
    assert Becomes(c, t, Submit(None), c');
  }

  lemma SubmitsTo(reach: iset<State>, c: State, t: Tid, r: Request, u: Tid) returns (c': State)
    requires Within(reach, c) && At(c, t, Pushing(r, true)) && c.owner == map[QueueMutex(TaskQueue) := t]
    requires !c.tasks.closed && u != t && At(c, u, Popping(TaskQueue, PopSleep))
    ensures c' == c.(threads := c.threads[u := Popping(TaskQueue, PopWoken)][t := Awaiting(r, FindWant)],
                     owner := map[], tasks := SharedQueue(c.tasks.items + multiset{r}, false))
    ensures Within(reach, c')
  {
    c' := Core(Post(c, t, Submit(Some(u))));
    Freed(c, t, Submit(Some(u)), QueueMutex(TaskQueue));
    assert Becomes(c, t, Submit(Some(u)), c');
  }

  /** After the queue was closed a push is refused, and the client waits all the same. */
  lemma SubmitsClosed(reach: iset<State>, c: State, t: Tid, r: Request, w: Option<Tid>) returns (c': State)
    requires Within(reach, c) && At(c, t, Pushing(r, true)) && c.owner == map[QueueMutex(TaskQueue) := t]
    requires c.tasks.closed
    ensures c' == c.(threads := c.threads[t := Awaiting(r, FindWant)], owner := map[])
    ensures Within(reach, c')
  {
    c' := Core(Post(c, t, Submit(w)));
    Freed(c, t, Submit(w), QueueMutex(TaskQueue));
    assert Becomes(c, t, Submit(w), c');
  }

  lemma Finds(reach: iset<State>, c: State, t: Tid, r: Request) returns (c': State)
    requires Within(reach, c) && At(c, t, Awaiting(r, FindHold)) && c.owner == map[TableMutex := t]
    requires r.client in c.table.items
    ensures c' == c.(threads := c.threads[t := Awaiting(r, LockWant(InTime))], owner := map[])
    ensures Within(reach, c')
  {
    c' := Core(Post(c, t, Find));
    Freed(c, t, Find, TableMutex);
    assert Becomes(c, t, Find, c');
  }

  lemma Sleeps(reach: iset<State>, c: State, t: Tid, r: Request) returns (c': State)
    requires Within(reach, c) && At(c, t, Awaiting(r, LockHold(InTime))) && c.owner == map[EntryMutex(r.client) := t]
    requires r.client in c.entries && c.entries[r.client].items == multiset{}
    ensures c' == c.(threads := c.threads[t := Awaiting(r, WaitSleep)], owner := map[])
    ensures Within(reach, c')
  {
    c' := Core(Post(c, t, Check));
    Freed(c, t, Check, EntryMutex(r.client));
    assert Becomes(c, t, Check, c');
  }

  lemma Expires(reach: iset<State>, c: State, t: Tid, r: Request, rc: WaitResult) returns (c': State)
    requires Within(reach, c) && At(c, t, Awaiting(r, WaitSleep))
    requires rc == TimedOut || rc == Failed
    ensures c' == c.(threads := c.threads[t := Awaiting(r, LockWant(rc))])
    ensures Within(reach, c')
  {
    c' := Core(Post(c, t, Expire(rc)));
    FreedNone(c, t, Expire(rc));
    assert Becomes(c, t, Expire(rc), c');
  }

  lemma GivesUp(reach: iset<State>, c: State, t: Tid, r: Request) returns (c': State)
    requires Within(reach, c) && At(c, t, Awaiting(r, LockHold(TimedOut))) && c.owner == map[EntryMutex(r.client) := t]
    requires r.client in c.entries && c.entries[r.client].items == multiset{}
    ensures c' == c.(threads := c.threads[t := Answering(r, TimeoutLine, false)], owner := map[])
    ensures Within(reach, c')
  {
    c' := Core(Post(c, t, Check));
    Freed(c, t, Check, EntryMutex(r.client));
    assert Becomes(c, t, Check, c');
  }

  lemma Fails(reach: iset<State>, c: State, t: Tid, r: Request) returns (c': State)
    requires Within(reach, c) && At(c, t, Awaiting(r, LockHold(Failed))) && c.owner == map[EntryMutex(r.client) := t]
    requires r.client in c.entries && c.entries[r.client].items == multiset{}
    ensures c' == c.(threads := c.threads[t := Answering(r, NoLine, false)], owner := map[])
    ensures Within(reach, c')
  {
    c' := Core(Post(c, t, Check));
    Freed(c, t, Check, EntryMutex(r.client));
    assert Becomes(c, t, Check, c');
  }

  lemma Replies(reach: iset<State>, c: State, t: Tid, r: Request, answer: Answer) returns (c': State)
    requires Within(reach, c) && At(c, t, Answering(r, answer, false))
    requires r.client in c.log
    ensures c' == c.(threads := c.threads[t := Reading(r.client)],
                     log := c.log[r.client := c.log[r.client] + [Wait(r, answer)]])
    ensures Within(reach, c')
  {
    c' := Core(Post(c, t, Reply));
    FreedNone(c, t, Reply);
    assert Becomes(c, t, Reply, c');
  }

  lemma PopsRequest(reach: iset<State>, c: State, t: Tid, r: Request) returns (c': State)
    requires Within(reach, c) && At(c, t, Popping(TaskQueue, PopHold)) && c.owner == map[QueueMutex(TaskQueue) := t]
    requires r in c.tasks.items
    ensures c' == c.(threads := c.threads[t := Carrying(r, Working)], owner := map[],
                     tasks := SharedQueue(c.tasks.items - multiset{r}, c.tasks.closed))
    ensures Within(reach, c')
  {
    c' := Core(Post(c, t, PopRequest(r)));
    Freed(c, t, PopRequest(r), QueueMutex(TaskQueue));
    assert Becomes(c, t, PopRequest(r), c');
  }

  lemma Processes(reach: iset<State>, c: State, t: Tid, r: Request) returns (c': State)
    requires Within(reach, c) && At(c, t, Carrying(r, Working))
    requires r.kind != Unknown && r.kind != Quit
    ensures c' == c.(threads := c.threads[t := Carrying(r, LookWant)])
    ensures Within(reach, c')
  {
    c' := Core(Post(c, t, Process));
    FreedNone(c, t, Process);
    assert Becomes(c, t, Process, c');
  }

  lemma Looks(reach: iset<State>, c: State, t: Tid, r: Request) returns (c': State)
    requires Within(reach, c) && At(c, t, Carrying(r, LookHold)) && c.owner == map[TableMutex := t]
    requires r.client in c.table.items
    ensures c' == c.(threads := c.threads[t := Carrying(r, GiveWant)], owner := map[])
    ensures Within(reach, c')
  {
    c' := Core(Post(c, t, Look));
    Freed(c, t, Look, TableMutex);
    assert Becomes(c, t, Look, c');
  }

  /** A worker that does not find the entry goes back to the queue. */
  lemma LooksInVain(reach: iset<State>, c: State, t: Tid, r: Request) returns (c': State)
    requires Within(reach, c) && At(c, t, Carrying(r, LookHold)) && c.owner == map[TableMutex := t]
    requires r.client !in c.table.items
    ensures c' == c.(threads := c.threads[t := Popping(TaskQueue, PopWant)], owner := map[])
    ensures Within(reach, c')
  {
    c' := Core(Post(c, t, Look));
    Freed(c, t, Look, TableMutex);
    assert Becomes(c, t, Look, c');
  }

  lemma Quits(reach: iset<State>, c: State, t: Tid, n: Cid) returns (c': State)
    requires Within(reach, c) && At(c, t, Reading(n))
    ensures c' == c.(threads := c.threads[t := Deregistering(n, false)])
    ensures Within(reach, c')
  {
    c' := Core(Post(c, t, Read(Quit)));
    FreedNone(c, t, Read(Quit));
    assert Becomes(c, t, Read(Quit), c');
  }

  lemma Unlists(reach: iset<State>, c: State, t: Tid, n: Cid) returns (c': State)
    requires Within(reach, c) && At(c, t, Deregistering(n, true)) && c.owner == map[TableMutex := t]
    requires n in c.table.items
    ensures c' == c.(threads := c.threads[t := Closing(n, CloseWant)], owner := map[],
                     table := SharedQueue(c.table.items - multiset{n}, c.table.closed))
    ensures Within(reach, c')
  {
    c' := Core(Post(c, t, Deregister));
    Freed(c, t, Deregister, TableMutex);
    assert Becomes(c, t, Deregister, c');
  }

  lemma ClosesQueue(reach: iset<State>, c: State, t: Tid, n: Cid) returns (c': State)
    requires Within(reach, c) && At(c, t, Closing(n, CloseQueueHold))
    requires n in c.entries && AllAwake(c)
    requires c.owner == map[EntryMutex(n) := t, EntryQueueMutex(n) := t]
    ensures c' == c.(threads := c.threads[t := Closing(n, CloseDone)], owner := map[EntryMutex(n) := t],
                     entries := c.entries[n := c.entries[n].(closed := true)])
    ensures Within(reach, c')
  {
    c' := Core(Post(c, t, CloseEntryQueue));
    assert WakeAll(c.threads, EntryNotEmpty(n)) == c.threads;
    FreedInner(c, t, CloseEntryQueue, EntryMutex(n), EntryQueueMutex(n));
    assert Becomes(c, t, CloseEntryQueue, c');
  }

  lemma ClosesEntry(reach: iset<State>, c: State, t: Tid, n: Cid) returns (c': State)
    requires Within(reach, c) && At(c, t, Closing(n, CloseDone)) && c.owner == map[EntryMutex(n) := t]
    requires AllAwake(c)
    ensures c' == c.(threads := c.threads[t := Closing(n, Destroying)], owner := map[])
    ensures Within(reach, c')
  {
    c' := Core(Post(c, t, FinishClose));
    Freed(c, t, FinishClose, EntryMutex(n));
    assert WakeAll(c.threads, Available(n)) == c.threads;
    assert Becomes(c, t, FinishClose, c');
  }

  lemma Destroys(reach: iset<State>, c: State, t: Tid, n: Cid) returns (c': State)
    requires Within(reach, c) && At(c, t, Closing(n, Destroying))
    requires c.owner == map[]
    ensures c' == c.(threads := c.threads[t := Popping(ClientQueue, PopWant)], entries := c.entries - {n})
    ensures Within(reach, c')
  {
    c' := Core(Post(c, t, Destroy));
    FreedNone(c, t, Destroy);
    assert Becomes(c, t, Destroy, c');
  }

  /** From the lock of the entry on, a worker whose entry is gone uses it all the same. */
  lemma Faults(reach: iset<State>, c: State, t: Tid, r: Request, g: CarryPc) returns (c': State)
    requires Within(reach, c) && At(c, t, Carrying(r, g))
    requires g != Working && g != LookWant && g != LookHold && r.client !in c.entries
    ensures c' == c.(threads := c.threads[t := Faulted(r)], owner := OwnerAfter(c, t, Fault))
    ensures Within(reach, c')
  {
    c' := Core(Post(c, t, Fault));
    assert Becomes(c, t, Fault, c');
  }

  lemma FaultsSignalling(reach: iset<State>, c: State, t: Tid, r: Request, e: bool) returns (c': State)
    requires Within(reach, c) && At(c, t, Given(r, e))
    requires r.client !in c.entries
    ensures c' == c.(threads := c.threads[t := Faulted(r)], owner := OwnerAfter(c, t, Fault))
    ensures Within(reach, c')
  {
    c' := Core(Post(c, t, Fault));
    assert Becomes(c, t, Fault, c');
  }

  lemma Peeks(reach: iset<State>, c: State, t: Tid, r: Request) returns (c': State)
    requires Within(reach, c) && At(c, t, Carrying(r, GiveHold))
    requires r.client in c.entries
    ensures c' == c.(threads := c.threads[t := Carrying(r, GiveQueueWant(c.entries[r.client].items == multiset{}))])
    ensures Within(reach, c')
  {
    c' := Core(Post(c, t, Peek));
    FreedNone(c, t, Peek);
    assert Becomes(c, t, Peek, c');
  }

  lemma Gives(reach: iset<State>, c: State, t: Tid, r: Request, e: bool) returns (c': State)
    requires Within(reach, c) && At(c, t, Carrying(r, GiveQueueHold(e)))
    requires r.client in c.entries && !c.entries[r.client].closed
    requires c.owner == map[EntryMutex(r.client) := t, EntryQueueMutex(r.client) := t]
    requires forall u :: u in c.threads ==> Asleep(c.threads[u]) != Some(EntryNotEmpty(r.client))
    ensures c' == c.(threads := c.threads[t := Given(r, e)], owner := map[EntryMutex(r.client) := t],
                     entries := c.entries[r.client := SharedQueue(c.entries[r.client].items + multiset{r}, false)])
    ensures Within(reach, c')
  {
    c' := Core(Post(c, t, Give(None)));
    FreedInner(c, t, Give(None), EntryMutex(r.client), EntryQueueMutex(r.client));
    assert Becomes(c, t, Give(None), c');
  }

  lemma Signals(reach: iset<State>, c: State, t: Tid, r: Request, u: Tid, x: Request) returns (c': State)
    requires Within(reach, c) && At(c, t, Given(r, true)) && c.owner == map[EntryMutex(r.client) := t]
    requires r.client in c.entries && u != t && At(c, u, Awaiting(x, WaitSleep)) && x.client == r.client
    ensures c' == c.(threads := c.threads[u := Awaiting(x, LockWant(InTime))][t := Popping(TaskQueue, PopWant)],
                     owner := map[])
    ensures Within(reach, c')
  {
    c' := Core(Post(c, t, FinishGive(Some(u))));
    Freed(c, t, FinishGive(Some(u)), EntryMutex(r.client));
    assert Becomes(c, t, FinishGive(Some(u)), c');
  }

  /** A push to an entry that is being closed is refused. */
  lemma GivesInVain(reach: iset<State>, c: State, t: Tid, r: Request, e: bool, w: Option<Tid>) returns (c': State)
    requires Within(reach, c) && At(c, t, Carrying(r, GiveQueueHold(e)))
    requires r.client in c.entries && c.entries[r.client].closed
    requires c.owner == map[EntryMutex(r.client) := t, EntryQueueMutex(r.client) := t]
    ensures c' == c.(threads := c.threads[t := Given(r, e)], owner := map[EntryMutex(r.client) := t])
    ensures Within(reach, c')
  {
    c' := Core(Post(c, t, Give(w)));
    FreedInner(c, t, Give(w), EntryMutex(r.client), EntryQueueMutex(r.client));
    assert Becomes(c, t, Give(w), c');
  }

  /** Only an entry that was empty is signalled. */
  lemma SignalsNobody(reach: iset<State>, c: State, t: Tid, r: Request, e: bool, w: Option<Tid>) returns (c': State)
    requires Within(reach, c) && At(c, t, Given(r, e)) && c.owner == map[EntryMutex(r.client) := t]
    requires r.client in c.entries
    requires e ==> w == None && forall u :: u in c.threads ==> Asleep(c.threads[u]) != Some(Available(r.client))
    ensures c' == c.(threads := c.threads[t := Popping(TaskQueue, PopWant)], owner := map[])
    ensures Within(reach, c')
  {
    c' := Core(Post(c, t, FinishGive(w)));
    Freed(c, t, FinishGive(w), EntryMutex(r.client));
    assert Becomes(c, t, FinishGive(w), c');
  }

  lemma FindsResponse(reach: iset<State>, c: State, t: Tid, r: Request, rc: WaitResult) returns (c': State)
    requires Within(reach, c) && At(c, t, Awaiting(r, LockHold(rc)))
    requires r.client in c.entries && c.entries[r.client].items != multiset{}
    ensures c' == c.(threads := c.threads[t := Awaiting(r, TakeWant)])
    ensures Within(reach, c')
  {
    c' := Core(Post(c, t, Check));
    FreedNone(c, t, Check);
    assert Becomes(c, t, Check, c');
  }

  lemma Takes(reach: iset<State>, c: State, t: Tid, r: Request, x: Request) returns (c': State)
    requires Within(reach, c) && At(c, t, Awaiting(r, TakeHold))
    requires r.client in c.entries && x in c.entries[r.client].items
    requires c.owner == map[EntryMutex(r.client) := t, EntryQueueMutex(r.client) := t]
    ensures c' == c.(threads := c.threads[t := Answering(r, Answered(x), true)],
                     owner := map[EntryMutex(r.client) := t],
                     entries := c.entries[r.client :=
                       c.entries[r.client].(items := c.entries[r.client].items - multiset{x})])
    ensures Within(reach, c')
  {
    c' := Core(Post(c, t, Take(x)));
    FreedInner(c, t, Take(x), EntryMutex(r.client), EntryQueueMutex(r.client));
    assert Becomes(c, t, Take(x), c');
  }

  lemma Unlocks(reach: iset<State>, c: State, t: Tid, r: Request, answer: Answer) returns (c': State)
    requires Within(reach, c) && At(c, t, Answering(r, answer, true)) && c.owner == map[EntryMutex(r.client) := t]
    ensures c' == c.(threads := c.threads[t := Answering(r, answer, false)], owner := map[])
    ensures Within(reach, c')
  {
    c' := Core(Post(c, t, Unlock));
    Freed(c, t, Unlock, EntryMutex(r.client));
    assert Becomes(c, t, Unlock, c');
  }

  lemma Stops(reach: iset<State>, c: State, t: Tid) returns (c': State)
    requires Within(reach, c) && At(c, t, Accepting)
    ensures c' == c.(threads := c.threads[t := Shutting(QueueMutex(ClientQueue), false)])
    ensures Within(reach, c')
  {
    c' := Core(Post(c, t, Stop));
    FreedNone(c, t, Stop);
    assert Becomes(c, t, Stop, c');
  }

  lemma ClosesClients(reach: iset<State>, c: State, t: Tid) returns (c': State)
    requires Within(reach, c) && At(c, t, Shutting(QueueMutex(ClientQueue), true))
    requires c.owner == map[QueueMutex(ClientQueue) := t]
    ensures c' == c.(threads := WakeAll(c.threads, NotEmpty(ClientQueue))[t := Shutting(QueueMutex(TaskQueue), false)],
                     owner := map[], clients := SharedQueue(c.clients.items, true))
    ensures Within(reach, c')
  {
    c' := Core(Post(c, t, Shut));
    Freed(c, t, Shut, QueueMutex(ClientQueue));
    assert Becomes(c, t, Shut, c');
  }

  lemma ClosesTasks(reach: iset<State>, c: State, t: Tid) returns (c': State)
    requires Within(reach, c) && At(c, t, Shutting(QueueMutex(TaskQueue), true))
    requires c.owner == map[QueueMutex(TaskQueue) := t]
    ensures c' == c.(threads := WakeAll(c.threads, NotEmpty(TaskQueue))[t := Shutting(TableMutex, false)],
                     owner := map[], tasks := SharedQueue(c.tasks.items, true))
    ensures Within(reach, c')
  {
    c' := Core(Post(c, t, Shut));
    Freed(c, t, Shut, QueueMutex(TaskQueue));
    assert Becomes(c, t, Shut, c');
  }

  lemma ClosesTable(reach: iset<State>, c: State, t: Tid) returns (c': State)
    requires Within(reach, c) && At(c, t, Shutting(TableMutex, true)) && c.owner == map[TableMutex := t]
    ensures c' == c.(threads := c.threads[t := Joining], owner := map[],
                     table := SharedQueue(c.table.items, true))
    ensures Within(reach, c')
  {
    c' := Core(Post(c, t, Shut));
    Freed(c, t, Shut, TableMutex);
    assert Becomes(c, t, Shut, c');
  }

  lemma Joins(reach: iset<State>, c: State, t: Tid) returns (c': State)
    requires Within(reach, c) && At(c, t, Joining)
    requires forall u :: u in c.threads && u != t ==> c.threads[u].Exited?
    ensures c' == c.(threads := c.threads[t := Stopped])
    ensures Within(reach, c')
  {
    c' := Core(Post(c, t, Join));
    FreedNone(c, t, Join);
    assert Becomes(c, t, Join, c');
  }
}
