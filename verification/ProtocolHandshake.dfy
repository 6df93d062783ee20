/**
 The handshake between a waiting client thread and the worker that answers it, on the
 mutex, the condition variable and the queue of the client's response entry.
 */
module ProtocolHandshake {
  import opened Types
  import opened Protocol
  import opened ProtocolInvariants
  import opened ProtocolRequests

  /** The queue of entry `c` is empty, or the worker that pushed to it is about to signal. */
  ghost predicate Idle(s: State, c: Cid) {
    c in s.entries ==>
      || s.entries[c].items == multiset{}
      || (EntryMutex(c) in s.owner && Signalling(s, s.owner[EntryMutex(c)], c))
  }

  ghost predicate Signalling(s: State, t: Tid, c: Cid) {
    t in s.threads && s.threads[t].Given? && s.threads[t].r.client == c && s.threads[t].wasEmpty
  }

  /** What a thread at this point of the handshake may rely on. */
  ghost predicate HandshakeOk(s: State, t: Tid)
    requires t in s.threads
  {
    match s.threads[t]
    case Awaiting(r, w) => (
      match w
      case WaitSleep => Idle(s, r.client)
      case TakeWant => r.client in s.entries ==> s.entries[r.client].items != multiset{}
      case TakeHold => r.client in s.entries ==> s.entries[r.client].items != multiset{}
      case TakeSleep => false
      case _ => true)
    case Answering(r, answer, held) => held ==> answer.Answered?
    case Carrying(r, g) => (
      match g
      case GiveQueueWant(e) => r.client in s.entries ==> (e <==> s.entries[r.client].items == multiset{})
      case GiveQueueHold(e) => r.client in s.entries ==> (e <==> s.entries[r.client].items == multiset{})
      case _ => true)
    case _ => true
  }

  ghost predicate Handshakes(s: State) {
    forall t :: t in s.threads ==> HandshakeOk(s, t)
  }

  /** Why the queue of entry `c` may differ after the step. */
  ghost predicate EntryCause(s: State, s': State, t: Tid, a: Step, c: Cid)
    requires t in s.threads && t in s'.threads
  {
    var pc := s.threads[t];
    c in s'.entries ==>
      || (c in s.entries && s'.entries[c].items == s.entries[c].items)
      || (a.Register? && pc.Registering? && pc.c == c)
      || (a.Take? && pc.Awaiting? && pc.w == TakeHold && pc.r.client == c)
      || (a.Give? && pc.Carrying? && pc.g.GiveQueueHold? && pc.r.client == c && s'.threads[t] == Given(pc.r, pc.g.wasEmpty))
  }

  lemma EntryCaused(s: State, t: Tid, a: Step, c: Cid)
    requires Enabled(s, t, a) && t in Post(s, t, a).threads && Post(s, t, a).threads[t] == Target(s, t, a)
    ensures EntryCause(s, Post(s, t, a), t, a, c)
  {
  }

  /** A mutex that the step does not release keeps its owner. */
  ghost predicate KeepsOwner(s: State, s': State, t: Tid, m: Mutex)
    requires t in s.threads && t in s'.threads
  {
    m in s.owner && (!Holds(s.threads[t], m) || Holds(s'.threads[t], m)) ==> m in s'.owner && s'.owner[m] == s.owner[m]
  }

  lemma OwnerKept(s: State, t: Tid, a: Step, m: Mutex)
    requires Enabled(s, t, a) && t in Post(s, t, a).threads && Post(s, t, a).threads[t] == Target(s, t, a)
    ensures KeepsOwner(s, Post(s, t, a), t, m)
  {
  }

  /** The signal of a worker that found the queue empty reaches the sleeping client. */
  lemma SignalWakes(s: State, t: Tid, a: Step, u: Tid)
    requires Servers(s) && Enabled(s, t, a) && a.FinishGive?
    requires u in s.threads && Asleep(s.threads[u]) == Some(Available(s.threads[t].r.client))
    requires s.threads[t].wasEmpty
    ensures u in Post(s, t, a).threads && Post(s, t, a).threads[u] == Woken(s.threads[u])
  {
    assert a.wake.Some?;
    OneServer(s, a.wake.value, u);
  }

  /** No other thread takes a response of a sleeping client, or finds its entry unregistered. */
  lemma SleeperAlone(s: State, t: Tid, u: Tid, r: Request)
    requires Connections(s) && Servers(s) && u != t && t in s.threads && u in s.threads
    requires s.threads[u] == Awaiting(r, WaitSleep)
    ensures s.threads[t].Awaiting? ==> s.threads[t].r.client != r.client
    ensures s.threads[t].Registering? ==> s.threads[t].c != r.client
  {
    assert ThreadServes(s, u) && ThreadServes(s, t);
    if s.threads[t].Awaiting? && s.threads[t].r.client == r.client {
      OneServer(s, t, u);
    }
  }

  lemma SleeperKept(s: State, s': State, t: Tid, a: Step, u: Tid, r: Request)
    requires Connections(s) && Servers(s) && Mutexes(s) && HandshakesAt(s, t, u)
    requires u != t && t in s.threads && u in s.threads && t in s'.threads
    requires s.threads[u] == Awaiting(r, WaitSleep)
    requires EntryCause(s, s', t, a, r.client) && KeepsOwner(s, s', t, EntryMutex(r.client))
    requires forall v :: v in s.threads && v != t && s.threads[v].Given? ==> v in s'.threads && s'.threads[v] == s.threads[v]
    requires !Signalling(s, t, r.client)
    ensures Idle(s', r.client)
  {
    SleeperAlone(s, t, u, r);
    assert ThreadServes(s, u) && ConnectionOk(s, r.client) && MutexOk(s, EntryMutex(r.client));
  }

  ghost predicate HandshakesAt(s: State, t: Tid, u: Tid) {
    && (t in s.threads ==> HandshakeOk(s, t))
    && (u in s.threads ==> HandshakeOk(s, u))
  }

  lemma WaitingHandshakeKept(s: State, s': State, t: Tid, a: Step, u: Tid)
    requires Connections(s) && Servers(s) && Mutexes(s) && Requests(s) && Hands(s) && HandshakesAt(s, t, u)
    requires u != t && t in s.threads && u in s.threads && t in s'.threads && u in s'.threads
    requires s'.threads[u] == s.threads[u]
    requires s.threads[u].Awaiting? && s.threads[u].w != WaitSleep && EntryCause(s, s', t, a, s.threads[u].r.client)
    ensures HandshakeOk(s', u)
  {
    var c := s.threads[u].r.client;
    assert ThreadServes(s, u) && ConnectionOk(s, c) && ThreadServes(s, t);
    if Holds(s.threads[u], EntryMutex(c)) && Holds(s.threads[t], EntryMutex(c)) {
      OneHolder(s, t, u, EntryMutex(c));
    }
  }

  lemma CarryingHandshakeKept(s: State, s': State, t: Tid, a: Step, u: Tid)
    requires Connections(s) && Servers(s) && Mutexes(s) && Requests(s) && Hands(s) && HandshakesAt(s, t, u)
    requires u != t && t in s.threads && u in s.threads && t in s'.threads && u in s'.threads
    requires s'.threads[u] == s.threads[u]
    requires s.threads[u].Carrying? && EntryCause(s, s', t, a, s.threads[u].r.client)
    ensures HandshakeOk(s', u)
  {
    var c := s.threads[u].r.client;
    assert HandOk(s, u) && RequestOk(s, s.threads[u].r) && ThreadServes(s, t);
    if Holds(s.threads[u], EntryMutex(c)) && Holds(s.threads[t], EntryMutex(c)) {
      OneHolder(s, t, u, EntryMutex(c));
    }
  }

  predicate LockStep(a: Step) {
    a.Acquire? || a.WakeSpuriously? || a.Expire?
  }

  predicate WaitStep(a: Step) {
    a.Check? || a.Take? || a.TakeNothing?
  }

  lemma TargetHandshakeOfLock(s: State, t: Tid, a: Step)
    requires HandshakesAt(s, t, t) && Enabled(s, t, a)
    requires LockStep(a)
    requires t in Post(s, t, a).threads && Post(s, t, a).threads[t] == Target(s, t, a)
    ensures HandshakeOk(Post(s, t, a), t)
  {
  }

  lemma TargetHandshakeOfWait(s: State, t: Tid, a: Step)
    requires HandshakesAt(s, t, t) && Enabled(s, t, a)
    requires WaitStep(a)
    requires t in Post(s, t, a).threads && Post(s, t, a).threads[t] == Target(s, t, a)
    ensures HandshakeOk(Post(s, t, a), t)
  {
  }

  /** A thread that relies on nothing. */
  predicate Plain(pc: Pc) {
    match pc
    case Awaiting(_, w) => w != WaitSleep && w != TakeWant && w != TakeHold && w != TakeSleep
    case Answering(_, _, held) => !held
    case Carrying(_, g) => !g.GiveQueueWant? && !g.GiveQueueHold?
    case _ => true
  }

  lemma TargetPlain(s: State, t: Tid, a: Step)
    requires Enabled(s, t, a) && !LockStep(a) && !WaitStep(a) && !a.Peek?
    ensures Plain(Target(s, t, a))
  {
  }

  lemma TargetHandshakeOfPeek(s: State, t: Tid, a: Step)
    requires HandshakesAt(s, t, t) && Enabled(s, t, a)
    requires a.Peek?
    requires t in Post(s, t, a).threads && Post(s, t, a).threads[t] == Target(s, t, a)
    ensures HandshakeOk(Post(s, t, a), t)
  {
  }

  /** Only `FinishGive` takes a signalling worker on while its client's entry exists. */
  lemma SignallingStep(s: State, t: Tid, a: Step, c: Cid)
    requires Enabled(s, t, a) && Signalling(s, t, c) && c in s.entries
    ensures a.FinishGive?
  {
  }

  lemma HandshakeKept(s: State, t: Tid, a: Step, u: Tid)
    requires Connections(s) && Servers(s) && Mutexes(s) && Requests(s) && Hands(s) && Handshakes(s)
    requires Enabled(s, t, a) && u in s.threads && u != t
    requires u in Post(s, t, a).threads
    ensures HandshakeOk(Post(s, t, a), u)
  {
    var s' := Post(s, t, a);
    ThreadsStep(s, t, a);
    assert HandshakesAt(s, t, u);
    if s.threads[u].Awaiting? && s.threads[u].w == WaitSleep {
      if s'.threads[u] == s.threads[u] {
        SleepingHandshakeKept(s, t, a, u);
      }
    } else if s'.threads[u] == s.threads[u] && (s.threads[u].Carrying? || s.threads[u].Awaiting?) {
      AwakeHandshakeKept(s, t, a, u);
    }
  }

  lemma AwakeHandshakeKept(s: State, t: Tid, a: Step, u: Tid)
    requires Connections(s) && Servers(s) && Mutexes(s) && Requests(s) && Hands(s) && HandshakesAt(s, t, u)
    requires Enabled(s, t, a) && u in s.threads && u != t && Moved(s.threads, Post(s, t, a).threads, t, Target(s, t, a))
    requires Post(s, t, a).threads[u] == s.threads[u]
    requires s.threads[u].Carrying? || (s.threads[u].Awaiting? && s.threads[u].w != WaitSleep)
    ensures HandshakeOk(Post(s, t, a), u)
  {
    EntryCaused(s, t, a, s.threads[u].r.client);
    if s.threads[u].Carrying? {
      CarryingHandshakeKept(s, Post(s, t, a), t, a, u);
    } else {
      WaitingHandshakeKept(s, Post(s, t, a), t, a, u);
    }
  }

  lemma SleepingHandshakeKept(s: State, t: Tid, a: Step, u: Tid)
    requires Connections(s) && Servers(s) && Mutexes(s) && HandshakesAt(s, t, u)
    requires Enabled(s, t, a) && u in s.threads && u != t && Moved(s.threads, Post(s, t, a).threads, t, Target(s, t, a))
    requires s.threads[u].Awaiting? && s.threads[u].w == WaitSleep && Post(s, t, a).threads[u] == s.threads[u]
    ensures Idle(Post(s, t, a), s.threads[u].r.client)
  {
    var c := s.threads[u].r.client;
    if Signalling(s, t, c) {
      assert ThreadServes(s, u) && ConnectionOk(s, c);
      SignallingStep(s, t, a, c);
      SignalWakes(s, t, a, u);
    } else {
      EntryCaused(s, t, a, c);
      OwnerKept(s, t, a, EntryMutex(c));
      GivenStay(s.threads, Post(s, t, a).threads, t, Target(s, t, a));
      SleeperKept(s, Post(s, t, a), t, a, u, s.threads[u].r);
    }
  }

  lemma GivenStay(th: map<Tid, Pc>, th': map<Tid, Pc>, t: Tid, pc: Pc)
    requires Moved(th, th', t, pc)
    ensures forall v :: v in th && v != t && th[v].Given? ==> v in th' && th'[v] == th[v]
  {
  }

  lemma TargetHandshake(s: State, t: Tid, a: Step)
    requires HandshakesAt(s, t, t) && Enabled(s, t, a)
    requires t in Post(s, t, a).threads && Post(s, t, a).threads[t] == Target(s, t, a)
    ensures HandshakeOk(Post(s, t, a), t)
  {
    if LockStep(a) {
      TargetHandshakeOfLock(s, t, a);
    } else if WaitStep(a) {
      TargetHandshakeOfWait(s, t, a);
    } else if a.Peek? {
      TargetHandshakeOfPeek(s, t, a);
    } else {
      TargetPlain(s, t, a);
    }
  }

  lemma HandshakesKept(s: State, t: Tid, a: Step)
    requires Connections(s) && Servers(s) && Mutexes(s) && Requests(s) && Hands(s) && Handshakes(s)
    requires Enabled(s, t, a)
    ensures Handshakes(Post(s, t, a))
  {
    ThreadsStep(s, t, a);
    forall u | u in Post(s, t, a).threads
      ensures HandshakeOk(Post(s, t, a), u)
    {
      if u == t {
        TargetHandshake(s, t, a);
      } else {
        HandshakeKept(s, t, a, u);
      }
    }
  }
}
