/**
 No lost wake-up on the queues the threads sleep on: signals go out one per push, sleepers
 may wake for no reason, and a thread that never slept may take the element first.
 */
module ProtocolWakeups {
  import opened Types
  import opened Protocol
  import opened ProtocolInvariants

  /** The threads asleep on `not_empty` of queue `q`. */
  ghost function Sleepers(th: map<Tid, Pc>, q: QueueId): set<Tid> {
    set t | t in th && th[t] == Popping(q, PopSleep)
  }

  /** The threads that have been woken, or have the mutex, and are yet to look at the queue. */
  ghost function Awake(th: map<Tid, Pc>, q: QueueId): set<Tid> {
    set t | t in th && (th[t] == Popping(q, PopWoken) || th[t] == Popping(q, PopHold))
  }

  /** While any thread sleeps, the queue is open and each element has a thread coming for it. */
  ghost predicate WakeupOk(s: State, q: QueueId) {
    Sleepers(s.threads, q) != {} ==> !IsClosed(s, q) && QueueSize(s, q) <= |Awake(s.threads, q)|
  }

  ghost predicate Wakeups(s: State) {
    forall q :: WakeupOk(s, q)
  }

  predicate Pushes(s: State, a: Step, q: QueueId) {
    && !IsClosed(s, q)
    && ((a.Submit? && q == TaskQueue) || (a.Offer? && q == ClientQueue))
  }

  predicate Closes(s: State, t: Tid, a: Step, q: QueueId) {
    a.Shut? && t in s.threads && s.threads[t].Shutting? && s.threads[t].m == QueueMutex(q)
  }

  /** The thread is in `queue_pop` of `q`. */
  predicate Pops(s: State, t: Tid, q: QueueId) {
    t in s.threads && s.threads[t].Popping? && s.threads[t].q == q
  }

  /** A sleeper of `q` is woken by a push to `q`, which signals it, or by closing `q`. */
  lemma SleeperStays(s: State, t: Tid, a: Step, q: QueueId, u: Tid)
    requires Enabled(s, t, a) && u in s.threads && s.threads[u] == Popping(q, PopSleep)
    ensures u in WokenThreads(s, t, a)
    ensures Closes(s, t, a, q) ==> WokenThreads(s, t, a)[u] == Popping(q, PopWoken)
    ensures Pushes(s, a, q) ==> a.wake.Some?
    ensures Pushes(s, a, q) ==> WokenThreads(s, t, a)[u] == if u == a.wake.value then Popping(q, PopWoken) else s.threads[u]
    ensures !Closes(s, t, a, q) && !Pushes(s, a, q) ==> WokenThreads(s, t, a)[u] == s.threads[u]
  {
    if !a.Submit? && !a.Offer? && !a.Shut? {
      SleeperIgnores(s, t, a, q, u);
    }
  }

  lemma SleeperIgnores(s: State, t: Tid, a: Step, q: QueueId, u: Tid)
    requires Enabled(s, t, a) && u in s.threads && s.threads[u] == Popping(q, PopSleep)
    requires !a.Submit? && !a.Offer? && !a.Shut?
    ensures u in WokenThreads(s, t, a) && WokenThreads(s, t, a)[u] == s.threads[u]
  {
  }

  /** By how much the step changes the size of `q`. */
  function Growth(s: State, a: Step, q: QueueId): int {
    if Pushes(s, a, q) then 1
    else if (a.PopRequest? && q == TaskQueue) || (a.PopClient? && q == ClientQueue) then -1
    else 0
  }

  lemma SizeAfter(s: State, t: Tid, a: Step, q: QueueId)
    requires Enabled(s, t, a)
    ensures QueueSize(Post(s, t, a), q) == QueueSize(s, q) + Growth(s, a, q)
  {
    if q == TaskQueue {
      TasksSizeAfter(s, t, a);
    } else {
      ClientsSizeAfter(s, t, a);
    }
  }

  lemma ClosedBefore(s: State, t: Tid, a: Step, q: QueueId)
    requires Enabled(s, t, a) && !Closes(s, t, a, q)
    ensures IsClosed(Post(s, t, a), q) <==> IsClosed(s, q)
  {
    ClosedAfter(s, t, a);
  }

  lemma TasksSizeAfter(s: State, t: Tid, a: Step)
    requires Enabled(s, t, a)
    ensures |TasksAfter(s, t, a).items| == |s.tasks.items| +
              (if a.Submit? && !s.tasks.closed then 1 else if a.PopRequest? then -1 else 0)
  {
  }

  lemma ClientsSizeAfter(s: State, t: Tid, a: Step)
    requires Enabled(s, t, a)
    ensures |ClientsAfter(s, t, a).items| == |s.clients.items| +
              (if a.Offer? && !s.clients.closed then 1 else if a.PopClient? then -1 else 0)
  {
  }

  /** Where a thread that is popping `q` goes, and that no other step arrives there. */
  lemma TargetPops(s: State, t: Tid, a: Step, q: QueueId)
    requires Enabled(s, t, a)
    ensures Pops(s, t, q) ==>
      || (a.Acquire? && Target(s, t, a) == Popping(q, PopHold) && s.threads[t].p != PopSleep && s.threads[t].p != PopHold)
      || (a.WakeSpuriously? && s.threads[t].p == PopSleep && Target(s, t, a) == Popping(q, PopWoken))
      || (a.PopRequest? && s.threads[t].p == PopHold && q == TaskQueue && !Target(s, t, a).Popping?)
      || (a.PopClient? && s.threads[t].p == PopHold && q == ClientQueue && !Target(s, t, a).Popping?)
      || (a.PopNothing? && s.threads[t].p == PopHold && QueueSize(s, q) == 0
          && Target(s, t, a) == if IsClosed(s, q) then Exited(q) else Popping(q, PopSleep))
    ensures !Pops(s, t, q) ==>
      || !Target(s, t, a).Popping?
      || Target(s, t, a).q != q
      || Target(s, t, a).p == PopWant
    ensures a.PopRequest? && q == TaskQueue ==> Pops(s, t, q)
    ensures a.PopClient? && q == ClientQueue ==> Pops(s, t, q)
    ensures Pushes(s, a, q) || Closes(s, t, a, q) ==> !s.threads[t].Popping?
  {
    if ClientStep(a) {
      TargetRoleOfClient(s, t, a);
    }
  }

  /** The threads around `q`, when `t` moves to `pc` and no sleeper of `q` is woken. */
  lemma QuietStep(th: map<Tid, Pc>, th': map<Tid, Pc>, t: Tid, pc: Pc, q: QueueId)
    requires Moved(th, th', t, pc)
    requires forall u :: u in th && u != t && th[u] == Popping(q, PopSleep) ==> th'[u] == th[u]
    ensures Sleepers(th', q) == Sleepers(th, q) - {t} + (if pc == Popping(q, PopSleep) then {t} else {})
    ensures Awake(th', q) == Awake(th, q) - {t} + (if pc == Popping(q, PopWoken) || pc == Popping(q, PopHold) then {t} else {})
  {
  }

  lemma SignalStep(th: map<Tid, Pc>, th': map<Tid, Pc>, t: Tid, pc: Pc, q: QueueId, w: Tid)
    requires Moved(th, th', t, pc) && !th[t].Popping? && !(pc.Popping? && pc.q == q && pc.p != PopWant)
    requires w in th && w != t && th[w] == Popping(q, PopSleep) && th'[w] == Popping(q, PopWoken)
    requires forall u :: u in th && u != t && u != w && th[u] == Popping(q, PopSleep) ==> th'[u] == th[u]
    ensures Sleepers(th', q) == Sleepers(th, q) - {w}
    ensures Awake(th', q) == Awake(th, q) + {w}
  {
  }

  /** Of the sleepers of `q`, a push wakes the one it signals. */
  lemma SignalledOnly(s: State, t: Tid, a: Step, q: QueueId)
    requires Enabled(s, t, a) && Pushes(s, a, q)
    requires Moved(s.threads, Post(s, t, a).threads, t, Target(s, t, a))
    ensures var th, th' := s.threads, Post(s, t, a).threads;
            forall u :: u in th && th[u] == Popping(q, PopSleep) ==>
              a.wake.Some? && u != t && th'[u] == if u == a.wake.value then Popping(q, PopWoken) else th[u]
  {
    forall u | u in s.threads && s.threads[u] == Popping(q, PopSleep)
      ensures a.wake.Some? && u != t
      ensures Post(s, t, a).threads[u] == if u == a.wake.value then Popping(q, PopWoken) else s.threads[u]
    {
      SleeperStays(s, t, a, q, u);
    }
  }

  lemma PushKeepsWakeup(s: State, t: Tid, a: Step, q: QueueId)
    requires WakeupOk(s, q) && Enabled(s, t, a) && Pushes(s, a, q)
    requires Moved(s.threads, Post(s, t, a).threads, t, Target(s, t, a))
    ensures WakeupOk(Post(s, t, a), q)
  {
    var th := s.threads;
    var th' := Post(s, t, a).threads;
    TargetPops(s, t, a, q);
    SizeAfter(s, t, a, q);
    ClosedBefore(s, t, a, q);
    SignalledOnly(s, t, a, q);
    if Sleepers(th, q) == {} {
      assert forall u :: u in th ==> u !in Sleepers(th, q);
      QuietStep(th, th', t, Target(s, t, a), q);
    } else {
      PushWakesSleeper(s, t, a, q);
      SignalStep(th, th', t, Target(s, t, a), q, a.wake.value);
    }
  }

  lemma PushWakesSleeper(s: State, t: Tid, a: Step, q: QueueId)
    requires Enabled(s, t, a) && Pushes(s, a, q) && Sleepers(s.threads, q) != {}
    ensures a.wake.Some? && a.wake.value in s.threads && s.threads[a.wake.value] == Popping(q, PopSleep)
  {
    var u :| u in Sleepers(s.threads, q);
    assert Asleep(s.threads[u]) == Some(NotEmpty(q));
  }

  lemma CloseKeepsWakeup(s: State, t: Tid, a: Step, q: QueueId)
    requires Enabled(s, t, a) && Closes(s, t, a, q)
    requires Moved(s.threads, Post(s, t, a).threads, t, Target(s, t, a))
    ensures WakeupOk(Post(s, t, a), q)
  {
    var th := s.threads;
    var th' := Post(s, t, a).threads;
    TargetPops(s, t, a, q);
    forall u | u in th'
      ensures th'[u] != Popping(q, PopSleep)
    {
      if u != t && th[u] == Popping(q, PopSleep) {
        SleeperStays(s, t, a, q, u);
      }
    }
    assert Sleepers(th', q) == {};
  }

  /** How a step that neither pushes to `q` nor closes it moves its thread with respect to `q`. */
  ghost predicate QuietMove(s: State, s': State, pc0: Pc, pc: Pc, q: QueueId) {
    var n := QueueSize(s, q);
    var n' := QueueSize(s', q);
    if !(pc0.Popping? && pc0.q == q) then n' == n && (!pc.Popping? || pc.q != q || pc.p == PopWant)
    else
      match pc0.p
      case PopSleep => n' == n && pc == Popping(q, PopWoken)
      case PopHold =>
        || (n' == n - 1 && !pc.Popping?)
        || (n == n' == 0 && pc == if IsClosed(s, q) then Exited(q) else Popping(q, PopSleep))
      case _ => n' == n && pc == Popping(q, PopHold)
  }

  lemma QuietMoves(s: State, t: Tid, a: Step, q: QueueId)
    requires Enabled(s, t, a) && !Pushes(s, a, q) && !Closes(s, t, a, q)
    ensures QuietMove(s, Post(s, t, a), s.threads[t], Target(s, t, a), q)
  {
    TargetPops(s, t, a, q);
    SizeAfter(s, t, a, q);
  }

  lemma QuietMoveKeepsWakeup(s: State, s': State, t: Tid, pc: Pc, q: QueueId)
    requires WakeupOk(s, q) && Moved(s.threads, s'.threads, t, pc) && QuietMove(s, s', s.threads[t], pc, q)
    requires IsClosed(s', q) <==> IsClosed(s, q)
    requires forall u :: u in s.threads && u != t && s.threads[u] == Popping(q, PopSleep) ==> s'.threads[u] == s.threads[u]
    ensures WakeupOk(s', q)
  {
    var th := s.threads;
    var th' := s'.threads;
    QuietStep(th, th', t, pc, q);
    var sleeps := pc == Popping(q, PopSleep);
    var awake := pc == Popping(q, PopWoken) || pc == Popping(q, PopHold);
    assert t in Awake(th, q) <==> th[t] == Popping(q, PopWoken) || th[t] == Popping(q, PopHold);
    QuietCount(t, Sleepers(th, q), Awake(th, q), QueueSize(s, q), sleeps, awake, QueueSize(s', q), IsClosed(s, q));
  }

  lemma QuietKeepsWakeup(s: State, t: Tid, a: Step, q: QueueId)
    requires WakeupOk(s, q) && Enabled(s, t, a) && !Pushes(s, a, q) && !Closes(s, t, a, q)
    requires Moved(s.threads, Post(s, t, a).threads, t, Target(s, t, a))
    ensures WakeupOk(Post(s, t, a), q)
  {
    var s' := Post(s, t, a);
    QuietMoves(s, t, a, q);
    ClosedBefore(s, t, a, q);
    forall u | u in s.threads && u != t && s.threads[u] == Popping(q, PopSleep)
      ensures s'.threads[u] == s.threads[u]
    {
      SleeperStays(s, t, a, q, u);
    }
    QuietMoveKeepsWakeup(s, s', t, Target(s, t, a), q);
  }

  /** The count behind `QuietKeepsWakeup`: only thread `t` can enter or leave the two sets. */
  lemma QuietCount(t: Tid, sleepers: set<Tid>, awake: set<Tid>, n: nat, sleeps: bool, isAwake: bool, n': nat, closed: bool)
    requires sleepers != {} ==> !closed && n <= |awake|
    requires sleeps ==> !closed && n' == 0
    requires t in awake && !isAwake ==> n' == n - 1 || n' == 0
    requires n' <= n
    ensures sleepers - {t} + (if sleeps then {t} else {}) != {} ==>
              !closed && n' <= |awake - {t} + (if isAwake then {t} else {})|
  {
    if t in awake {
      assert |awake - {t}| == |awake| - 1;
      assert awake - {t} + {t} == awake;
    } else {
      assert awake - {t} == awake;
      assert |awake + {t}| == |awake| + 1;
    }
  }

  lemma WakeupsKept(s: State, t: Tid, a: Step)
    requires Wakeups(s) && Enabled(s, t, a)
    ensures Wakeups(Post(s, t, a))
  {
    ThreadsStep(s, t, a);
    forall q
      ensures WakeupOk(Post(s, t, a), q)
    {
      assert WakeupOk(s, q);
      if Pushes(s, a, q) {
        PushKeepsWakeup(s, t, a, q);
      } else if Closes(s, t, a, q) {
        CloseKeepsWakeup(s, t, a, q);
      } else {
        QuietKeepsWakeup(s, t, a, q);
      }
    }
  }
}
