/** What every step of the protocol keeps: threads, mutexes, connections and requests. */
module ProtocolInvariants {
  import opened Types
  import opened Protocol

  function One(b: bool): nat {
    if b then 1 else 0
  }

  // ---------- What a step does to the threads ----------

  /** `pc'` is `pc`, or where `pc` goes when it is woken. */
  predicate StaysOrWakes(pc: Pc, pc': Pc) {
    pc' == pc || (Asleep(pc).Some? && pc' == Woken(pc))
  }

  /** Thread `t` goes to `pc`; every other thread stays where it is or is woken. */
  ghost predicate Moved(th: map<Tid, Pc>, th': map<Tid, Pc>, t: Tid, pc: Pc) {
    && th'.Keys == th.Keys
    && t in th
    && th'[t] == pc
    && (forall u :: u in th && u != t ==> StaysOrWakes(th[u], th'[u]))
  }

  lemma WokenThreadsStep(s: State, t: Tid, a: Step, u: Tid)
    requires Enabled(s, t, a) && u in s.threads
    ensures u in WokenThreads(s, t, a) && StaysOrWakes(s.threads[u], WokenThreads(s, t, a)[u])
  {
  }

  lemma WokenThreadsKeys(s: State, t: Tid, a: Step)
    requires Enabled(s, t, a)
    ensures WokenThreads(s, t, a).Keys == s.threads.Keys
  {
  }

  lemma ThreadsStep(s: State, t: Tid, a: Step)
    requires Enabled(s, t, a)
    ensures Moved(s.threads, Post(s, t, a).threads, t, Target(s, t, a))
  {
    WokenThreadsKeys(s, t, a);
    forall u | u in s.threads
      ensures StaysOrWakes(s.threads[u], WokenThreads(s, t, a)[u])
    {
      WokenThreadsStep(s, t, a, u);
    }
    var th := WokenThreads(s, t, a);
    assert Post(s, t, a).threads == th[t := Target(s, t, a)];
  }

  /** Being woken changes nothing but the sleep itself. */
  lemma WakingKeeps(u: Tid, pc: Pc, pc': Pc)
    requires StaysOrWakes(pc, pc')
    ensures RoleOf(pc') == RoleOf(pc)
    ensures ConnectionOf(u, pc') == ConnectionOf(u, pc)
    ensures forall m :: Holds(pc', m) <==> Holds(pc, m)
    ensures RoleOf(pc) == MainRole || pc.Exited? ==> pc' == pc
    ensures pc'.Exited? ==> pc' == pc
  {
  }

  predicate ClientStep(a: Step) {
    || a.Read? || a.Submit? || a.Find? || a.Check? || a.Take? || a.TakeNothing? || a.Unlock? || a.Reply?
    || a.Deregister? || a.CloseEntryQueue? || a.FinishClose? || a.Destroy?
  }

  lemma TargetRoleOfClient(s: State, t: Tid, a: Step)
    requires Enabled(s, t, a) && ClientStep(a)
    ensures RoleOf(Target(s, t, a)) == RoleOf(s.threads[t]) == ClientRole
  {
  }

  lemma TargetRole(s: State, t: Tid, a: Step)
    requires Enabled(s, t, a)
    ensures RoleOf(Target(s, t, a)) == RoleOf(s.threads[t])
  {
    if ClientStep(a) {
      TargetRoleOfClient(s, t, a);
    }
  }

  lemma TargetHolds(s: State, t: Tid, a: Step, m: Mutex)
    requires Enabled(s, t, a)
    ensures a.Acquire? ==> (Holds(Target(s, t, a), m) <==> Holds(s.threads[t], m) || Wants(s.threads[t]) == Some(m))
    ensures !a.Acquire? ==> Holds(Target(s, t, a), m) ==> Holds(s.threads[t], m)
  {
    if ClientStep(a) {
      TargetHoldsOfClient(s, t, a, m);
    }
  }

  lemma TargetHoldsOfClient(s: State, t: Tid, a: Step, m: Mutex)
    requires Enabled(s, t, a) && ClientStep(a)
    ensures Holds(Target(s, t, a), m) ==> Holds(s.threads[t], m)
  {
  }

  // ---------- Roles ----------

  /** Threads keep their roles; only thread 0 runs `main`. */
  ghost predicate Roles(s: State) {
    && s.role.Keys == s.threads.Keys
    && 0 in s.threads
    && (forall t :: t in s.threads ==> RoleOf(s.threads[t]) == s.role[t])
    && (forall t :: t in s.threads ==> (s.role[t] == MainRole <==> t == 0))
  }

  lemma RolesKept(s: State, t: Tid, a: Step)
    requires Roles(s) && Enabled(s, t, a)
    ensures Roles(Post(s, t, a))
  {
    ThreadsStep(s, t, a);
    TargetRole(s, t, a);
  }

  // ---------- Mutexes ----------

  ghost predicate MutexOk(s: State, m: Mutex) {
    && (m in s.owner ==> s.owner[m] in s.threads && Holds(s.threads[s.owner[m]], m))
    && (forall t :: t in s.threads && Holds(s.threads[t], m) ==> m in s.owner && s.owner[m] == t)
  }

  /** A mutex has the owner that holds it, and no thread holds a mutex it does not own. */
  ghost predicate Mutexes(s: State) {
    forall m :: MutexOk(s, m)
  }

  lemma MutexesKeptBy(s: State, s': State, t: Tid, pc: Pc, m: Mutex)
    requires MutexOk(s, m) && Moved(s.threads, s'.threads, t, pc)
    requires Holds(pc, m) && !Holds(s.threads[t], m) ==> m !in s.owner && m in s'.owner && s'.owner[m] == t
    requires Holds(pc, m) && Holds(s.threads[t], m) ==> m in s.owner && m in s'.owner && s'.owner[m] == s.owner[m]
    requires !Holds(pc, m) ==> (m in s'.owner <==> m in s.owner && !Holds(s.threads[t], m))
    requires !Holds(pc, m) && m in s'.owner ==> m in s.owner && s'.owner[m] == s.owner[m]
    ensures MutexOk(s', m)
  {
    forall u | u in s.threads && u != t
      ensures Holds(s'.threads[u], m) <==> Holds(s.threads[u], m)
    {
      WakingKeeps(u, s.threads[u], s'.threads[u]);
    }
  }

  lemma MutexesKept(s: State, t: Tid, a: Step)
    requires Mutexes(s) && Enabled(s, t, a)
    ensures Mutexes(Post(s, t, a))
  {
    ThreadsStep(s, t, a);
    forall m
      ensures MutexOk(Post(s, t, a), m)
    {
      assert MutexOk(s, m);
      TargetHolds(s, t, a, m);
      MutexesKeptBy(s, Post(s, t, a), t, Target(s, t, a), m);
    }
  }

  // ---------- Phases of the shutdown ----------

  /** How many of the three queues `main` has closed. */
  function Phase(pc: Pc): nat {
    match pc
    case Shutting(m, _) => if m == QueueMutex(ClientQueue) then 0 else if m == QueueMutex(TaskQueue) then 1 else 2
    case Joining => 3
    case Stopped => 3
    case _ => 0
  }

  ghost predicate Phases(s: State) {
    && 0 in s.threads
    && (s.threads[0].Shutting? ==> s.threads[0].m.QueueMutex? || s.threads[0].m.TableMutex?)
    && (s.clients.closed <==> Phase(s.threads[0]) >= 1)
    && (s.tasks.closed <==> Phase(s.threads[0]) >= 2)
    && (s.table.closed <==> Phase(s.threads[0]) >= 3)
  }

  predicate MainStep(a: Step) {
    a.Accept? || a.Register? || a.Offer? || a.Stop? || a.Shut? || a.Join?
  }

  lemma MainStepRole(s: State, t: Tid, a: Step)
    requires Enabled(s, t, a)
    ensures MainStep(a) ==> RoleOf(s.threads[t]) == MainRole
    ensures RoleOf(s.threads[t]) == MainRole ==> MainStep(a) || a.Acquire?
  {
    if ClientStep(a) {
      TargetRoleOfClient(s, t, a);
    } else if !MainStep(a) && !a.Acquire? {
      ServiceStepRole(s, t, a);
    }
  }

  /** The steps of the poppers, the sleepers and the workers. */
  lemma ServiceStepRole(s: State, t: Tid, a: Step)
    requires Enabled(s, t, a) && !ClientStep(a) && !MainStep(a) && !a.Acquire?
    ensures RoleOf(s.threads[t]) != MainRole
  {
  }

  lemma TargetPhase(s: State, t: Tid, a: Step)
    requires Enabled(s, t, a) && RoleOf(s.threads[t]) == MainRole && (MainStep(a) || a.Acquire?)
    requires s.threads[t].Shutting? ==> s.threads[t].m.QueueMutex? || s.threads[t].m.TableMutex?
    ensures var pc := Target(s, t, a);
            && Phase(pc) == Phase(s.threads[t]) + (if a.Shut? then 1 else 0)
            && (pc.Shutting? ==> pc.m.QueueMutex? || pc.m.TableMutex?)
    ensures a.Shut? ==> Phase(s.threads[t]) == match s.threads[t].m case QueueMutex(ClientQueue) => 0 case QueueMutex(TaskQueue) => 1 case _ => 2
  {
  }

  lemma ClosedAfter(s: State, t: Tid, a: Step)
    requires Enabled(s, t, a)
    ensures TasksAfter(s, t, a).closed <==> s.tasks.closed || (a.Shut? && s.threads[t].m == QueueMutex(TaskQueue))
    ensures ClientsAfter(s, t, a).closed <==> s.clients.closed || (a.Shut? && s.threads[t].m == QueueMutex(ClientQueue))
    ensures TableAfter(s, t, a).closed <==> s.table.closed || (a.Shut? && s.threads[t].m == TableMutex)
  {
  }

  lemma PhasesKeptBy(s: State, s': State, t: Tid, pc: Pc, shut: bool)
    requires Roles(s) && Phases(s) && Moved(s.threads, s'.threads, t, pc)
    requires t != 0 ==> !shut
    requires t == 0 ==>
      && Phase(pc) == Phase(s.threads[t]) + One(shut)
      && (pc.Shutting? ==> pc.m.QueueMutex? || pc.m.TableMutex?)
    requires s'.clients.closed <==> s.clients.closed || (shut && Phase(s.threads[0]) == 0)
    requires s'.tasks.closed <==> s.tasks.closed || (shut && Phase(s.threads[0]) == 1)
    requires s'.table.closed <==> s.table.closed || (shut && Phase(s.threads[0]) == 2)
    ensures Phases(s')
  {
    if t != 0 {
      WakingKeeps(0, s.threads[0], s'.threads[0]);
    }
  }

  lemma PhasesKept(s: State, t: Tid, a: Step)
    requires Roles(s) && Phases(s) && Enabled(s, t, a)
    ensures Phases(Post(s, t, a))
  {
    ThreadsStep(s, t, a);
    MainStepRole(s, t, a);
    ClosedAfter(s, t, a);
    if t == 0 {
      TargetPhase(s, t, a);
    }
    PhasesKeptBy(s, Post(s, t, a), t, Target(s, t, a), a.Shut?);
  }

  /** A thread exits only from a closed and empty queue, which stays so. */
  ghost predicate Exits(s: State) {
    && (forall t :: t in s.threads && s.threads[t].Exited? ==> Drained(s, s.threads[t].q))
    && (0 in s.threads && s.threads[0] == Stopped ==> forall t :: t in s.threads && t != 0 ==> s.threads[t].Exited?)
  }

  ghost predicate Drained(s: State, q: QueueId) {
    IsClosed(s, q) && QueueSize(s, q) == 0
  }

  lemma DrainedKept(s: State, t: Tid, a: Step, q: QueueId)
    requires Enabled(s, t, a) && Drained(s, q)
    ensures Drained(Post(s, t, a), q)
  {
    assert q == TaskQueue ==> s.tasks.items == multiset{};
    assert q == ClientQueue ==> s.clients.items == multiset{};
  }

  lemma TargetExited(s: State, t: Tid, a: Step)
    requires Enabled(s, t, a)
    ensures Target(s, t, a).Exited? ==> Drained(s, Target(s, t, a).q)
    ensures Target(s, t, a) == Stopped ==> a.Join?
  {
    if ClientStep(a) {
      TargetRoleOfClient(s, t, a);
    }
  }

  lemma ExitedIsFinal(s: State, t: Tid, a: Step)
    requires Enabled(s, t, a)
    ensures !s.threads[t].Exited? && s.threads[t] != Stopped
  {
  }

  lemma ExitsKeptBy(s: State, s': State, t: Tid, pc: Pc)
    requires Roles(s) && Exits(s) && Moved(s.threads, s'.threads, t, pc)
    requires !s.threads[t].Exited? && s.threads[t] != Stopped
    requires pc.Exited? ==> Drained(s, pc.q)
    requires pc == Stopped ==> forall u :: u in s.threads && u != t ==> s.threads[u].Exited?
    requires RoleOf(pc) == RoleOf(s.threads[t])
    requires forall q :: Drained(s, q) ==> Drained(s', q)
    ensures Exits(s')
  {
    forall u | u in s.threads && u != t
      ensures s'.threads[u].Exited? || s.threads[u].Exited? ==> s'.threads[u] == s.threads[u]
    {
      WakingKeeps(u, s.threads[u], s'.threads[u]);
    }
    WakingKeeps(0, s.threads[0], if t == 0 then s.threads[0] else s'.threads[0]);
  }

  lemma ExitsKept(s: State, t: Tid, a: Step)
    requires Roles(s) && Exits(s) && Enabled(s, t, a)
    ensures Exits(Post(s, t, a))
  {
    ThreadsStep(s, t, a);
    TargetExited(s, t, a);
    TargetRole(s, t, a);
    ExitedIsFinal(s, t, a);
    forall q | Drained(s, q)
      ensures Drained(Post(s, t, a), q)
    {
      DrainedKept(s, t, a, q);
    }
    ExitsKeptBy(s, Post(s, t, a), t, Target(s, t, a));
  }

  // ---------- Connections ----------

  predicate Listed(k: Conn) {
    k.Offered? || k.Pending? || k.ServedBy?
  }

  predicate HasEntry(k: Conn) {
    Listed(k) || k.ClosedBy?
  }

  predicate WasServed(k: Conn) {
    k.ServedBy? || k.ClosedBy? || k.Left?
  }

  /** What the shared state says of connection `c` is what its history says. */
  ghost predicate ConnectionOk(s: State, c: Cid) {
    && (c in s.conn <==> 1 <= c < s.nextClient)
    && s.clients.items[c] == One(c in s.conn && s.conn[c].Pending?)
    && s.table.items[c] == One(c in s.conn && Listed(s.conn[c]))
    && s.served[c] == One(c in s.conn && WasServed(s.conn[c]))
    && (c in s.entries <==> c in s.conn && HasEntry(s.conn[c]))
    && (c in s.entries && s.entries[c].closed ==> s.conn[c].ClosedBy?)
    && (c in s.log <==> c in s.conn)
  }

  ghost predicate Connections(s: State) {
    s.nextClient >= 1 && forall c :: ConnectionOk(s, c)
  }

  /** The threads that work for a connection are the ones its history names. */
  ghost predicate ThreadServes(s: State, t: Tid)
    requires t in s.threads
  {
    var k := ConnectionOf(t, s.threads[t]);
    k.Some? ==> k.value.0 in s.conn && s.conn[k.value.0] == k.value.1
  }

  ghost predicate HasServer(s: State, c: Cid)
    requires c in s.conn
  {
    match s.conn[c]
    case ServedBy(t) => t in s.threads && ConnectionOf(t, s.threads[t]) == Some((c, s.conn[c]))
    case ClosedBy(t) => t in s.threads && ConnectionOf(t, s.threads[t]) == Some((c, s.conn[c]))
    case Fresh => 0 in s.threads && ConnectionOf(0, s.threads[0]) == Some((c, Fresh))
    case Offered => 0 in s.threads && ConnectionOf(0, s.threads[0]) == Some((c, Offered))
    case _ => true
  }

  ghost predicate Servers(s: State) {
    && (forall t :: t in s.threads ==> ThreadServes(s, t))
    && (forall c :: c in s.conn ==> HasServer(s, c))
  }

  /** Steps that do not move a connection on leave their thread working for the same one. */
  lemma TargetConnection(s: State, t: Tid, a: Step)
    requires Enabled(s, t, a) && NewConn(s, t, a).None? && !a.Offer? && !a.Deregister?
    ensures ConnectionOf(t, Target(s, t, a)) == ConnectionOf(t, s.threads[t])
  {
    if ClientStep(a) {
      TargetConnectionOfClient(s, t, a);
    }
  }

  lemma TargetConnectionOfClient(s: State, t: Tid, a: Step)
    requires Enabled(s, t, a) && ClientStep(a) && NewConn(s, t, a).None? && !a.Deregister?
    ensures ConnectionOf(t, Target(s, t, a)) == ConnectionOf(t, s.threads[t])
  {
  }

  lemma ServersKeptByOthers(s: State, s': State, t: Tid, pc: Pc)
    requires Servers(s) && Moved(s.threads, s'.threads, t, pc)
    requires s'.conn == s.conn && ConnectionOf(t, pc) == ConnectionOf(t, s.threads[t])
    ensures Servers(s')
  {
    forall u | u in s.threads
      ensures ConnectionOf(u, s'.threads[u]) == ConnectionOf(u, s.threads[u])
    {
      if u != t {
        WakingKeeps(u, s.threads[u], s'.threads[u]);
      }
    }
    forall u | u in s'.threads
      ensures ThreadServes(s', u)
    {
      assert ThreadServes(s, u);
    }
    forall c | c in s'.conn
      ensures HasServer(s', c)
    {
      assert HasServer(s, c);
    }
  }

  /** Connection `c` moves from what it was to `k`, and thread `t` moves with it. */
  lemma ServersKeptByConnStep(s: State, s': State, t: Tid, pc: Pc, c: Cid, k: Conn)
    requires Roles(s) && Servers(s) && Moved(s.threads, s'.threads, t, pc)
    requires s'.conn == s.conn[c := k]
    requires c in s.conn ==> s.conn[c].Pending? || ConnectionOf(t, s.threads[t]) == Some((c, s.conn[c]))
    requires ConnectionOf(t, s.threads[t]).None? || ConnectionOf(t, s.threads[t]).value.0 == c
    requires ConnectionOf(t, pc) == Some((c, k)) || (ConnectionOf(t, pc) == None && (k.Pending? || k.Left?))
    requires k.Fresh? || k.Offered? ==> t == 0
    requires k.ServedBy? || k.ClosedBy? ==> k.t == t
    ensures Servers(s')
  {
    forall u | u in s.threads && u != t
      ensures ConnectionOf(u, s'.threads[u]) == ConnectionOf(u, s.threads[u])
    {
      WakingKeeps(u, s.threads[u], s'.threads[u]);
    }
    forall u | u in s'.threads
      ensures ThreadServes(s', u)
    {
      if u != t {
        assert ThreadServes(s, u) && ThreadServes(s, t);
        ConnectionRole(u, s.threads[u]);
        ConnectionRole(t, s.threads[t]);
      }
    }
    forall d | d in s'.conn
      ensures HasServer(s', d)
    {
      if d != c {
        assert HasServer(s, d);
      }
    }
  }

  /** A connection's state names the thread that works for it. */
  lemma ConnectionRole(u: Tid, pc: Pc)
    ensures ConnectionOf(u, pc).Some? ==>
      match ConnectionOf(u, pc).value.1
      case Fresh => RoleOf(pc) == MainRole
      case Offered => RoleOf(pc) == MainRole
      case ServedBy(v) => v == u
      case ClosedBy(v) => v == u
      case _ => false
  {
  }

  /** `main` registers and offers before it closes anything; a served entry is listed. */
  lemma ConnStepTakesPlace(s: State, t: Tid, a: Step)
    requires Roles(s) && Phases(s) && Connections(s) && Servers(s) && Enabled(s, t, a)
    ensures a.Offer? ==> !s.clients.closed
    ensures a.Register? ==> !s.table.closed
    ensures a.Deregister? ==> s.threads[t].c in s.table.items
    ensures a.Offer? || a.Deregister? ==> NewConn(s, t, a).Some?
  {
    if a.Offer? || a.Register? {
      MainStepRole(s, t, a);
      assert t == 0;
    }
    if a.Deregister? {
      var c := s.threads[t].c;
      assert ThreadServes(s, t) && ConnectionOk(s, c);
    }
  }

  lemma TargetConnectionMoved(s: State, t: Tid, a: Step)
    requires Enabled(s, t, a) && NewConn(s, t, a).Some?
    ensures var (c, k) := NewConn(s, t, a).value; var pc := Target(s, t, a); var pc0 := s.threads[t];
            && (ConnectionOf(t, pc0).None? || ConnectionOf(t, pc0).value.0 == c)
            && (ConnectionOf(t, pc0).None? <==> a.Accept? || a.PopClient?)
            && (ConnectionOf(t, pc) == Some((c, k)) || (ConnectionOf(t, pc) == None && (k.Pending? || k.Left?)))
            && (k.Fresh? || k.Offered? ==> MainStep(a))
            && (k.ServedBy? || k.ClosedBy? ==> k.t == t)
            && (a.Accept? ==> c == s.nextClient)
            && (a.PopClient? ==> c in s.clients.items)
  {
  }

  lemma ServersKept(s: State, t: Tid, a: Step)
    requires Roles(s) && Phases(s) && Connections(s) && Servers(s) && Enabled(s, t, a)
    ensures Servers(Post(s, t, a))
  {
    ThreadsStep(s, t, a);
    ConnStepTakesPlace(s, t, a);
    MainStepRole(s, t, a);
    if NewConn(s, t, a).Some? {
      var (c, k) := NewConn(s, t, a).value;
      TargetConnectionMoved(s, t, a);
      assert ThreadServes(s, t) && ConnectionOk(s, c);
      ServersKeptByConnStep(s, Post(s, t, a), t, Target(s, t, a), c, k);
    } else {
      TargetConnection(s, t, a);
      ServersKeptByOthers(s, Post(s, t, a), t, Target(s, t, a));
    }
  }

  /** Nothing that `ConnectionOk` says of `c` changes between the two states. */
  ghost predicate SameConnection(s: State, s': State, c: Cid) {
    && (c in s'.conn <==> c in s.conn)
    && (c in s.conn ==> s'.conn[c] == s.conn[c])
    && (1 <= c < s'.nextClient <==> 1 <= c < s.nextClient)
    && s'.clients.items[c] == s.clients.items[c]
    && s'.table.items[c] == s.table.items[c]
    && s'.served[c] == s.served[c]
    && (c in s'.entries <==> c in s.entries)
    && (c in s.entries ==> s'.entries[c].closed == s.entries[c].closed)
    && (c in s'.log <==> c in s.log)
  }

  /** A step changes only what is said of the connection it moves on, or closes. */
  lemma OtherConnections(s: State, t: Tid, a: Step, c: Cid)
    requires Enabled(s, t, a)
    requires NewConn(s, t, a).Some? ==> c != NewConn(s, t, a).value.0
    requires a.CloseEntryQueue? ==> c != s.threads[t].c
    requires a.Offer? ==> !s.clients.closed
    requires a.Deregister? ==> s.threads[t].c in s.table.items
    ensures SameConnection(s, Post(s, t, a), c)
  {
    ItemsOfOthers(s, t, a, c);
    EntriesOfOthers(s, t, a, c);
  }

  lemma ItemsOfOthers(s: State, t: Tid, a: Step, c: Cid)
    requires Enabled(s, t, a)
    requires NewConn(s, t, a).Some? ==> c != NewConn(s, t, a).value.0
    requires a.Offer? ==> !s.clients.closed
    requires a.Deregister? ==> s.threads[t].c in s.table.items
    ensures ClientsAfter(s, t, a).items[c] == s.clients.items[c]
    ensures TableAfter(s, t, a).items[c] == s.table.items[c]
  {
  }

  lemma EntriesOfOthers(s: State, t: Tid, a: Step, c: Cid)
    requires Enabled(s, t, a)
    requires NewConn(s, t, a).Some? ==> c != NewConn(s, t, a).value.0
    requires a.CloseEntryQueue? ==> c != s.threads[t].c
    requires a.Deregister? ==> s.threads[t].c in s.table.items
    ensures var e := EntriesAfter(s, t, a);
            && (c in e <==> c in s.entries)
            && (c in s.entries ==> e[c].closed == s.entries[c].closed)
    ensures c in LogAfter(s, t, a) <==> c in s.log
  {
    if a.Register? || a.Take? || a.Give? || a.CloseEntryQueue? || a.Destroy? {
    } else {
      assert EntriesAfter(s, t, a) == s.entries;
    }
  }

  lemma ConnectionAccepted(s: State, t: Tid, a: Step)
    requires Connections(s) && ThreadServesIfAny(s, t) && Enabled(s, t, a)
    requires a.Accept?
    ensures ConnectionOk(Post(s, t, a), NewConn(s, t, a).value.0)
  {
    assert ConnectionOk(s, NewConn(s, t, a).value.0);
  }

  lemma ConnectionRegistered(s: State, t: Tid, a: Step)
    requires Connections(s) && ThreadServesIfAny(s, t) && Enabled(s, t, a)
    requires a.Register? && !s.table.closed
    ensures ConnectionOk(Post(s, t, a), NewConn(s, t, a).value.0)
  {
    assert ConnectionOk(s, NewConn(s, t, a).value.0);
  }

  lemma ConnectionOffered(s: State, t: Tid, a: Step)
    requires Connections(s) && ThreadServesIfAny(s, t) && Enabled(s, t, a)
    requires a.Offer? && !s.clients.closed
    ensures ConnectionOk(Post(s, t, a), NewConn(s, t, a).value.0)
  {
    assert ConnectionOk(s, NewConn(s, t, a).value.0);
  }

  lemma ConnectionPopped(s: State, t: Tid, a: Step)
    requires Connections(s) && ThreadServesIfAny(s, t) && Enabled(s, t, a)
    requires a.PopClient?
    ensures ConnectionOk(Post(s, t, a), NewConn(s, t, a).value.0)
  {
    assert ConnectionOk(s, NewConn(s, t, a).value.0);
  }

  lemma ConnectionDeregistered(s: State, t: Tid, a: Step)
    requires Connections(s) && ThreadServesIfAny(s, t) && Enabled(s, t, a)
    requires a.Deregister? && s.threads[t].c in s.table.items
    ensures ConnectionOk(Post(s, t, a), NewConn(s, t, a).value.0)
  {
    assert ConnectionOk(s, NewConn(s, t, a).value.0);
  }

  lemma ConnectionDestroyed(s: State, t: Tid, a: Step)
    requires Connections(s) && ThreadServesIfAny(s, t) && Enabled(s, t, a)
    requires a.Destroy?
    ensures ConnectionOk(Post(s, t, a), NewConn(s, t, a).value.0)
  {
    assert ConnectionOk(s, NewConn(s, t, a).value.0);
  }

  ghost predicate ThreadServesIfAny(s: State, t: Tid) {
    t in s.threads ==> ThreadServes(s, t)
  }

  lemma ConnectionMoved(s: State, t: Tid, a: Step)
    requires Connections(s) && ThreadServesIfAny(s, t) && Enabled(s, t, a) && NewConn(s, t, a).Some?
    requires a.Register? ==> !s.table.closed
    ensures ConnectionOk(Post(s, t, a), NewConn(s, t, a).value.0)
  {
    match a
    case Accept => ConnectionAccepted(s, t, a);
    case Register => ConnectionRegistered(s, t, a);
    case Offer(_) => ConnectionOffered(s, t, a);
    case PopClient(_) => ConnectionPopped(s, t, a);
    case Deregister => ConnectionDeregistered(s, t, a);
    case Destroy => ConnectionDestroyed(s, t, a);
  }

  lemma ConnectionKept(s: State, t: Tid, a: Step, c: Cid)
    requires Connections(s) && ThreadServesIfAny(s, t) && Enabled(s, t, a)
    requires a.Register? ==> !s.table.closed
    requires a.Offer? || a.Deregister? ==> NewConn(s, t, a).Some?
    ensures ConnectionOk(Post(s, t, a), c)
  {
    assert ConnectionOk(s, c);
    if NewConn(s, t, a).Some? && c == NewConn(s, t, a).value.0 {
      ConnectionMoved(s, t, a);
    } else if a.CloseEntryQueue? && c == s.threads[t].c {
      assert ThreadServes(s, t);
    } else {
      OtherConnections(s, t, a, c);
    }
  }

  lemma ConnectionsKept(s: State, t: Tid, a: Step)
    requires Roles(s) && Phases(s) && Connections(s) && Servers(s) && Enabled(s, t, a)
    ensures Connections(Post(s, t, a))
  {
    ConnStepTakesPlace(s, t, a);
    forall c
      ensures ConnectionOk(Post(s, t, a), c)
    {
      ConnectionKept(s, t, a, c);
    }
  }
}
