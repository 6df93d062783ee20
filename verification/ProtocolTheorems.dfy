/** What holds in every reachable state of the protocol, whatever the interleaving. */
module ProtocolTheorems {
  import opened Types
  import opened Protocol
  import opened ProtocolInvariants
  import opened ProtocolRequests
  import opened ProtocolHandshake
  import opened ProtocolWakeups
  import opened ProtocolLedger
  import opened ProtocolOrder
  import opened ProtocolMatching
  import opened ProtocolAccounts

  ghost predicate Inv(s: State) {
    && Roles(s) && Mutexes(s) && Phases(s) && Exits(s)
    && Connections(s) && Servers(s)
    && Requests(s) && Hands(s) && Handshakes(s)
    && Wakeups(s) && Ledger(s) && Answers(s) && Order(s) && Matching(s) && Accounts(s)
  }

  lemma InitThreads(s: State)
    requires IsInit(s)
    ensures Roles(s) && Mutexes(s) && Phases(s) && Exits(s) && Connections(s) && Servers(s)
  {
  }

  lemma InitRequests(s: State)
    requires IsInit(s)
    ensures Requests(s) && Hands(s) && Handshakes(s) && Wakeups(s) && Ledger(s) && Answers(s) && Order(s)
    ensures Matching(s) && Accounts(s)
  {
    InitRecords(s);
    forall q
      ensures WakeupOk(s, q)
    {
      assert Sleepers(s.threads, q) == {};
    }
    forall c
      ensures LedgerOk(s, c)
    {
      assert Outstanding(s, c) == {};
    }
  }

  lemma InitRecords(s: State)
    requires IsInit(s)
    ensures Answers(s) && Order(s) && Matching(s) && Accounts(s)
  {
  }

  lemma StepKeepsInv(s: State, t: Tid, a: Step)
    requires Inv(s) && Enabled(s, t, a)
    ensures Inv(Post(s, t, a))
  {
    RolesKept(s, t, a);
    MutexesKept(s, t, a);
    PhasesKept(s, t, a);
    ExitsKept(s, t, a);
    ConnectionsKept(s, t, a);
    ServersKept(s, t, a);
    RequestsKept(s, t, a);
    HandsKept(s, t, a);
    HandshakesKept(s, t, a);
    WakeupsKept(s, t, a);
    AnswersKept(s, t, a);
    LedgersKept(s, t, a);
    OrderKept(s, t, a);
    MatchingKept(s, t, a);
    AccountsKept(s, t, a);
  }

  lemma LedgersKept(s: State, t: Tid, a: Step)
    requires Connections(s) && Servers(s) && Requests(s) && Hands(s) && Handshakes(s) && Ledger(s) && Enabled(s, t, a)
    ensures Ledger(Post(s, t, a))
  {
    forall c
      ensures LedgerOk(Post(s, t, a), c)
    {
      assert LedgerOk(s, c);
      LedgerKept(s, t, a, c);
    }
  }

  lemma NextKeepsInv(s: State, s': State)
    requires Inv(s) && Next(s, s')
    ensures Inv(s')
  {
    var t, a :| Enabled(s, t, a) && s' == Post(s, t, a);
    StepKeepsInv(s, t, a);
  }

  lemma {:induction false} RunInv(run: seq<State>, i: nat)
    requires IsRun(run) && i < |run|
    ensures Inv(run[i])
    decreases i
  {
    if i == 0 {
      InitThreads(run[0]);
      InitRequests(run[0]);
    } else {
      RunInv(run, i - 1);
      NextKeepsInv(run[i - 1], run[i]);
    }
  }

  lemma ReachableInv(s: State)
    requires Reachable(s)
    ensures Inv(s)
  {
    var run :| IsRun(run) && run[|run| - 1] == s;
    RunInv(run, |run| - 1);
  }

  // ---------- Mutexes ----------

  lemma MutualExclusion(s: State, t: Tid, u: Tid, m: Mutex)
    requires Reachable(s) && t in s.threads && u in s.threads
    requires Holds(s.threads[t], m) && Holds(s.threads[u], m)
    ensures t == u
  {
    ReachableInv(s);
    OneHolder(s, t, u, m);
  }

  /** No thread is asleep on a condition variable while it holds a mutex. */
  lemma SleepersHoldNothing(s: State, t: Tid, m: Mutex)
    requires Reachable(s) && t in s.threads && Asleep(s.threads[t]).Some?
    ensures !Holds(s.threads[t], m)
  {
    ReachableInv(s);
    assert HandshakeOk(s, t);
  }

  /** Thread `t` is blocked on a mutex that thread `u` owns. */
  ghost predicate BlockedOn(s: State, t: Tid, u: Tid) {
    && t in s.threads && u in s.threads
    && Wants(s.threads[t]).Some?
    && Wants(s.threads[t]).value in s.owner
    && s.owner[Wants(s.threads[t]).value] == u
  }

  /** Mutexes are nested only as entry, then the queue of that entry. */
  lemma Nesting(pc: Pc, m: Mutex)
    requires Wants(pc).Some? && Holds(pc, m)
    ensures m.EntryMutex? && Wants(pc).value == EntryQueueMutex(m.c)
  {
  }

  /** A thread that blocks someone who holds a mutex is itself not blocked. */
  lemma NoChain(s: State, t: Tid, u: Tid, m: Mutex)
    requires Mutexes(s) && BlockedOn(s, t, u) && Holds(s.threads[t], m)
    ensures Wants(s.threads[u]).None?
  {
    var n := Wants(s.threads[t]).value;
    assert MutexOk(s, n);
    Nesting(s.threads[t], m);
    if Wants(s.threads[u]).Some? {
      Nesting(s.threads[u], n);
    }
  }

  function After(i: nat, n: nat): nat {
    if i + 1 < n then i + 1 else 0
  }

  /** Threads in a circle, each blocked on a mutex that the next one owns. */
  ghost predicate Deadlocked(s: State, circle: seq<Tid>) {
    |circle| > 0 && forall i :: 0 <= i < |circle| ==> BlockedOn(s, circle[i], circle[After(i, |circle|)])
  }

  lemma NoMutexDeadlock(s: State, circle: seq<Tid>)
    requires Reachable(s)
    ensures !Deadlocked(s, circle)
  {
    ReachableInv(s);
    if Deadlocked(s, circle) {
      var n := |circle|;
      var last, first, second := circle[n - 1], circle[0], circle[After(0, n)];
      assert BlockedOn(s, circle[n - 1], circle[After(n - 1, n)]);
      assert BlockedOn(s, circle[After(0, n)], circle[After(After(0, n), n)]);
      assert MutexOk(s, Wants(s.threads[last]).value);
      NoChain(s, first, second, Wants(s.threads[last]).value);
    }
  }

  /**
   Whoever owns a mutex can get on: it is not asleep or gone, and if it is blocked on
   another mutex, the owner of that one is not blocked on any.
   */
  lemma OwnersGetOn(s: State, m: Mutex)
    requires Reachable(s) && m in s.owner
    ensures s.owner[m] in s.threads
    ensures Asleep(s.threads[s.owner[m]]).None? && !s.threads[s.owner[m]].Exited?
    ensures forall u :: BlockedOn(s, s.owner[m], u) ==> Wants(s.threads[u]).None?
  {
    ReachableInv(s);
    assert MutexOk(s, m);
    var t := s.owner[m];
    if Asleep(s.threads[t]).Some? {
      SleepersHoldNothing(s, t, m);
    }
    forall u | BlockedOn(s, t, u)
      ensures Wants(s.threads[u]).None?
    {
      NoChain(s, t, u, m);
    }
  }

  // ---------- Wake-ups ----------

  /**
   While a thread sleeps on a queue, the queue is open and holds no more elements than there
   are threads coming for them: woken and not yet back or, while the mutex is taken, inside.
   */
  lemma NoLostWakeup(s: State, q: QueueId)
    requires Reachable(s) && Sleepers(s.threads, q) != {}
    ensures !IsClosed(s, q)
    ensures QueueSize(s, q) <= |Awake(s.threads, q)|
    ensures QueueMutex(q) !in s.owner ==>
              QueueSize(s, q) <= |set t | t in s.threads && s.threads[t] == Popping(q, PopWoken)|
  {
    ReachableInv(s);
    assert WakeupOk(s, q) && MutexOk(s, QueueMutex(q));
    if QueueMutex(q) !in s.owner {
      assert Awake(s.threads, q) == set t | t in s.threads && s.threads[t] == Popping(q, PopWoken);
    }
  }

  /**
   While a client sleeps on its entry, there is nothing to take, or the worker that found
   the entry empty and pushed to it still holds the mutex and is about to signal.
   */
  lemma NoLostResponse(s: State, t: Tid, r: Request)
    requires Reachable(s) && t in s.threads && s.threads[t] == Awaiting(r, WaitSleep)
    ensures r.client in s.entries
    ensures || s.entries[r.client].items == multiset{}
            || (EntryMutex(r.client) in s.owner && Signalling(s, s.owner[EntryMutex(r.client)], r.client))
  {
    ReachableInv(s);
    assert HandshakeOk(s, t) && ThreadServes(s, t) && ConnectionOk(s, r.client);
  }

  // ---------- Routing ----------

  /** Client thread `t` is serving connection `c`, up to its deregistration. */
  predicate Serves(s: State, t: Tid, c: Cid) {
    t in s.threads && ConnectionOf(t, s.threads[t]) == Some((c, ServedBy(t)))
  }

  /** The response map lists each live connection once, under an id already given out. */
  lemma RoutingTable(s: State, c: Cid)
    requires Reachable(s)
    ensures s.table.items[c] <= 1 && s.served[c] <= 1
    ensures c in s.table.items ==> 1 <= c < s.nextClient && c in s.entries && !s.entries[c].closed
    ensures forall t :: Serves(s, t, c) ==> c in s.table.items
    ensures forall t, u :: Serves(s, t, c) && Serves(s, u, c) ==> t == u
  {
    ReachableInv(s);
    assert ConnectionOk(s, c);
    forall t | Serves(s, t, c)
      ensures c in s.table.items && s.conn[c] == ServedBy(t)
    {
      assert ThreadServes(s, t);
    }
  }

  /** A response sits in the entry of the client that asked, and is written to no other. */
  lemma ResponsesAreRouted(s: State, c: Cid)
    requires Reachable(s)
    ensures c in s.entries ==> forall r :: r in s.entries[c].items ==> r.client == c
    ensures c in s.log ==> forall i :: 0 <= i < |s.log[c]| && s.log[c][i].answer.Answered? ==>
              s.log[c][i].answer.request.client == c
  {
    ReachableInv(s);
    assert LogOk(s, c);
    if c in s.entries {
      forall r | r in s.entries[c].items
        ensures r.client == c
      {
        assert ResponseOk(s, c, r);
      }
    }
  }

  // ---------- The request ledger ----------

  ghost function QueuedFor(s: State, c: Cid): set<Request> {
    set r | r in s.tasks.items && r.client == c
  }

  ghost function WorkersFor(s: State, c: Cid): set<Tid> {
    set t | t in s.threads && s.threads[t].Carrying? && s.threads[t].r.client == c
  }

  ghost function CarriedFor(s: State, ts: set<Tid>): set<Request>
    requires forall t :: t in ts ==> t in s.threads && s.threads[t].Carrying?
  {
    set t | t in ts :: s.threads[t].r
  }

  lemma {:induction false} CarriedOnceEach(s: State, ts: set<Tid>)
    requires Hands(s)
    requires forall t :: t in ts ==> t in s.threads && s.threads[t].Carrying?
    ensures |CarriedFor(s, ts)| == |ts|
    decreases |ts|
  {
    if ts != {} {
      var t :| t in ts;
      var rest := ts - {t};
      CarriedOnceEach(s, rest);
      assert HandOk(s, t);
      forall u | u in rest
        ensures s.threads[u].r != s.threads[t].r
      {
        assert HandOk(s, u);
      }
      assert CarriedFor(s, ts) == CarriedFor(s, rest) + {s.threads[t].r};
    } else {
      assert CarriedFor(s, ts) == {};
    }
  }

  lemma {:induction false} OnesCount<T>(m: multiset<T>, xs: set<T>)
    requires forall x :: m[x] == One(x in xs)
    ensures |m| == |xs|
    decreases |xs|
  {
    if xs == {} {
      assert m == multiset{};
    } else {
      var x :| x in xs;
      OnesCount(m - multiset{x}, xs - {x});
      assert m == m - multiset{x} + multiset{x};
    }
  }

  ghost function DeliveredFor(s: State, c: Cid): set<Request> {
    set r | r in s.fate && r.client == c && s.fate[r].Delivered?
  }

  /** Before shutdown and while `c` is registered, each outstanding request is in one of three places. */
  lemma OutstandingPlaces(s: State, c: Cid)
    requires Connections(s) && Requests(s) && Hands(s) && !s.tasks.closed && c in s.table.items
    ensures var carried := CarriedFor(s, WorkersFor(s, c));
            && Outstanding(s, c) == QueuedFor(s, c) + carried + DeliveredFor(s, c)
            && QueuedFor(s, c) !! carried
            && QueuedFor(s, c) + carried !! DeliveredFor(s, c)
  {
    var carried := CarriedFor(s, WorkersFor(s, c));
    assert ConnectionOk(s, c);
    forall r: Request | r.client == c
      ensures r in QueuedFor(s, c) <==> r in s.fate && s.fate[r].Queued?
      ensures r in carried <==> r in s.fate && s.fate[r].Held?
      ensures r in s.fate ==> !s.fate[r].Dropped? && !s.fate[r].Discarded?
    {
      assert RequestOk(s, r);
      if r in s.fate && s.fate[r].Held? {
        assert HolderOk(s, r);
        assert s.fate[r].t in WorkersFor(s, c);
      }
      if r in carried {
        var t :| t in WorkersFor(s, c) && s.threads[t].r == r;
        assert HandOk(s, t);
      }
    }
  }

  /**
   The request ledger: requests of `c` in the task queue, plus those in the hands of
   workers, plus responses in the entry of `c`, equal the waits of `c` that ended without
   a response, plus one while its thread waits.
   */
  lemma RequestLedger(s: State, c: Cid)
    requires Reachable(s) && !s.tasks.closed && c in s.table.items
    ensures c in s.entries
    ensures |QueuedFor(s, c)| + |WorkersFor(s, c)| + |s.entries[c].items| == Lost(s, c) + One(AwaitingOn(s, c))
    ensures forall r :: s.tasks.items[r] <= 1 && s.entries[c].items[r] <= 1
  {
    ReachableInv(s);
    assert ConnectionOk(s, c) && LedgerOk(s, c);
    OutstandingPlaces(s, c);
    CarriedOnceEach(s, WorkersFor(s, c));
    forall r
      ensures s.entries[c].items[r] == One(r in DeliveredFor(s, c)) && s.tasks.items[r] <= 1
    {
      assert ResponseOk(s, c, r) && RequestOk(s, r);
    }
    OnesCount(s.entries[c].items, DeliveredFor(s, c));
  }

  // ---------- Runs without failed waits ----------

  /**
   Whether or not waits were lost, what is recorded of the waits of `c`, and so what is
   written to it, follows the order in which its requests were pushed, one record a
   request, and no response is taken twice.
   */
  lemma RepliesInOrder(s: State, c: Cid, i: nat, j: nat)
    requires Reachable(s) && c in s.log && i < j < |s.log[c]|
    ensures s.log[c][i].request.id < s.log[c][j].request.id
    ensures s.log[c][i].answer.Answered? ==> s.log[c][i].answer != s.log[c][j].answer
  {
    ReachableInv(s);
    assert LogOrderOk(s, c);
  }

  /**
   While no wait of `c` has ended without a response, `c` has at most one outstanding
   request, which is the one it waits for, and each line written to it answers exactly
   the request it was written for, in the order of the requests.
   */
  lemma ReplyMatching(s: State, c: Cid)
    requires Reachable(s) && Lost(s, c) == 0
    ensures |Outstanding(s, c)| <= 1
    ensures forall t, r :: t in s.threads && AwaitsFor(s.threads[t], c) && r in Outstanding(s, c) ==> r == s.threads[t].r
    ensures c in s.log ==> forall i :: 0 <= i < |s.log[c]| ==> s.log[c][i].answer == Answered(s.log[c][i].request)
    ensures c in s.log ==> Increasing(s.log[c])
  {
    ReachableInv(s);
    assert LedgerOk(s, c) && LogOk(s, c) && LogOrderOk(s, c);
    forall t, r | t in s.threads && AwaitsFor(s.threads[t], c) && r in Outstanding(s, c)
      ensures r == s.threads[t].r
    {
      assert HandOk(s, t);
      OnlyOutstanding(s, t, r);
    }
  }

  /**
   Up to the first wait of `c` that ended without a response every wait got the response to
   its own request; all did exactly when every wait got some response.
   */
  lemma MatchedUntilLost(s: State, c: Cid, n: nat)
    requires Reachable(s) && c in s.log && n <= |s.log[c]|
    ensures AllOwn(s.log[c][..n]) <==> AllAnswered(s.log[c][..n])
  {
    ReachableInv(s);
    var log := LogOf(s, c);
    assert MatchedOk(s, c);
    if AllOwn(log[..n]) {
      forall i | 0 <= i < n
        ensures log[..n][i].answer.Answered?
      {
        assert log[..n][i].answer == Answered(log[..n][i].request);
      }
    }
    if AllAnswered(log[..n]) {
      assert AllOwn(log[..n]);
    }
  }

  /**
   The entry a worker is delivering to is registered and open, from the pop of the request
   to the signal, exactly as long as a client thread serves the connection.
   */
  lemma EntryLifetimeIff(s: State, t: Tid)
    requires Reachable(s) && t in s.threads && (s.threads[t].Carrying? || s.threads[t].Given?)
    ensures var c := s.threads[t].r.client;
            c in s.table.items && c in s.entries && !s.entries[c].closed <==> exists u :: Serves(s, u, c)
  {
    ReachableInv(s);
    var c := s.threads[t].r.client;
    assert HandOk(s, t) && RequestOk(s, s.threads[t].r) && ConnectionOk(s, c) && HasServer(s, c);
    if c in s.table.items {
      assert Serves(s, s.conn[c].t, c);
    }
    if u :| Serves(s, u, c) {
      assert ThreadServes(s, u);
    }
  }

  /** In particular while no wait of its client has ended without a response. */
  lemma EntryLifetime(s: State, t: Tid)
    requires Reachable(s) && t in s.threads && (s.threads[t].Carrying? || s.threads[t].Given? || s.threads[t].Faulted?)
    requires Lost(s, s.threads[t].r.client) == 0
    ensures !s.threads[t].Faulted?
    ensures var c := s.threads[t].r.client;
            c in s.table.items && c in s.entries && !s.entries[c].closed
  {
    ReachableInv(s);
    assert AnswerOk(s, t) && HandOk(s, t);
    var r := s.threads[t].r;
    if !s.threads[t].Faulted? {
      assert LedgerOk(s, r.client);
      OutstandingIsAwaited(s, r);
    }
  }

  /** A response is thrown away only when its client has left, after a lost wait. */
  lemma NothingDiscarded(s: State, r: Request)
    requires Reachable(s) && r in s.fate
    ensures r.client in s.table.items ==> !s.fate[r].Discarded?
    ensures Lost(s, r.client) == 0 ==> !s.fate[r].Discarded?
  {
    ReachableInv(s);
    assert LedgerOk(s, r.client) && RequestOk(s, r);
    assert ConnectionOk(s, r.client);
    if s.fate[r].Discarded? && Lost(s, r.client) == 0 {
      OutstandingIsAwaited(s, r);
    }
  }

  // ---------- Exactly once, and drained at shutdown ----------

  /**
   Every number given out belongs to exactly one request, which was submitted or is about
   to be pushed by the client thread that read it.
   */
  lemma RequestsAccounted(s: State, id: nat)
    requires Reachable(s) && id < s.nextRequest
    ensures exists r: Request :: r.id == id && Known(s, r)
    ensures forall r, x :: Known(s, r) && Known(s, x) && r.id == id == x.id ==> r == x
  {
    ReachableInv(s);
    assert NumberOk(s, id);
  }

  /** What becomes of a push: before the task queue is closed the request is queued, afterwards it is dropped. */
  lemma PushOutcome(s: State, t: Tid, a: Step, r: Request)
    requires Enabled(s, t, a) && a.Submit? && s.threads[t] == Pushing(r, true)
    ensures var s' := Post(s, t, a);
            && s'.tasks == (if s.tasks.closed then s.tasks else SharedQueue(s.tasks.items + multiset{r}, false))
            && r in s'.fate && s'.fate[r] == (if s.tasks.closed then Dropped else Queued)
            && s'.threads[t] == Awaiting(r, FindWant)
  {
  }

  /** Every accepted request is either still queued or has been popped exactly once. */
  lemma PoppedAtMostOnce(s: State, r: Request)
    requires Reachable(s)
    ensures s.popped[r] <= 1
    ensures r in s.fate && !s.fate[r].Dropped? ==> s.popped[r] + s.tasks.items[r] == 1
    ensures r in s.popped ==> r in s.fate
  {
    ReachableInv(s);
    assert RequestOk(s, r);
  }

  /** A thread that got NULL from its queue saw it closed and empty, and so it remains. */
  lemma ExitedMeansDrained(s: State, t: Tid)
    requires Reachable(s) && t in s.threads && s.threads[t].Exited?
    ensures Drained(s, s.threads[t].q)
    ensures forall s' :: Next(s, s') ==> Drained(s', s.threads[t].q)
  {
    ReachableInv(s);
    var q := s.threads[t].q;
    forall s' | Next(s, s')
      ensures Drained(s', q)
    {
      var u, a :| Enabled(s, u, a) && s' == Post(s, u, a);
      DrainedKept(s, u, a, q);
    }
  }

  /** The worker has run to the end of its loop, or has touched an entry that was gone. */
  predicate WorkerDone(pc: Pc) {
    pc.Exited? || pc.Faulted?
  }

  /** Once the workers have exited, every accepted request has been processed exactly once. */
  lemma DrainedAtShutdown(s: State, w: Tid, r: Request)
    requires Reachable(s)
    requires w in s.threads && RoleOf(s.threads[w]) == WorkerRole && s.threads[w].Exited?
    requires forall t :: t in s.threads && RoleOf(s.threads[t]) == WorkerRole ==> WorkerDone(s.threads[t])
    requires r in s.fate && !s.fate[r].Dropped?
    ensures s.popped[r] == 1
    ensures s.fate[r].Delivered? || s.fate[r].Consumed? || s.fate[r].Discarded?
    ensures s.fate[r].Discarded? ==> r.client !in s.table.items && Lost(s, r.client) > 0
  {
    ReachableInv(s);
    assert RequestOk(s, r) && HolderOk(s, r);
    ExitedMeansDrained(s, w);
    NothingDiscarded(s, r);
    assert s.tasks.items == multiset{};
  }

  /** `main` frees the server only after every thread has left its queue, closed and empty. */
  lemma StoppedMeansDone(s: State, t: Tid)
    requires Reachable(s) && 0 in s.threads && s.threads[0] == Stopped && t in s.threads && t != 0
    ensures s.threads[t].Exited? && Drained(s, s.threads[t].q)
    ensures s.clients.closed && s.tasks.closed && s.table.closed
  {
    ReachableInv(s);
  }
}
