/** Every thread that is not waiting for something can step, so no mutex is held for ever. */
module ProtocolProgress {
  import opened Types
  import opened Protocol
  import opened ProtocolInvariants
  import opened ProtocolHandshake
  import opened ProtocolTheorems

  /** The thread has run its course, or waits for all the others to. */
  predicate AtEnd(pc: Pc) {
    pc.Exited? || pc.Stopped? || pc.Faulted? || pc.Joining?
  }

  /** Not blocked on a mutex, not asleep, not at its end. */
  predicate Running(pc: Pc) {
    Wants(pc).None? && Asleep(pc).None? && !AtEnd(pc)
  }

  ghost predicate CanStep(s: State, t: Tid) {
    exists a :: Enabled(s, t, a)
  }

  lemma WakeChoice(th: map<Tid, Pc>, cv: CondVar) returns (w: Option<Tid>)
    ensures ValidWake(th, cv, w)
  {
    if u :| u in th && Asleep(th[u]) == Some(cv) {
      w := Some(u);
    } else {
      w := None;
    }
  }

  lemma PopperCanStep(s: State, t: Tid)
    requires t in s.threads && s.threads[t].Popping? && s.threads[t].p == PopHold
    ensures CanStep(s, t)
  {
    var q := s.threads[t].q;
    if QueueSize(s, q) == 0 {
      assert Enabled(s, t, PopNothing);
    } else if q == TaskQueue {
      var r :| r in s.tasks.items;
      assert Enabled(s, t, PopRequest(r));
    } else {
      var c :| c in s.clients.items;
      assert Enabled(s, t, PopClient(c));
    }
  }

  lemma AwaiterCanStep(s: State, t: Tid)
    requires Inv(s) && t in s.threads && s.threads[t].Awaiting? && Running(s.threads[t])
    ensures CanStep(s, t)
  {
    var r := s.threads[t].r;
    assert ThreadServes(s, t) && ConnectionOk(s, r.client) && HandshakeOk(s, t);
    match s.threads[t].w
    case FindHold => assert Enabled(s, t, Find);
    case LockHold(_) => assert Enabled(s, t, Check);
    case TakeHold =>
      var x :| x in s.entries[r.client].items;
      assert Enabled(s, t, Take(x));
  }

  lemma CloserCanStep(s: State, t: Tid)
    requires Connections(s) && Servers(s) && t in s.threads && s.threads[t].Closing? && Running(s.threads[t])
    ensures CanStep(s, t)
  {
    assert ThreadServes(s, t) && ConnectionOk(s, s.threads[t].c);
    if s.threads[t].k == CloseQueueHold {
      assert Enabled(s, t, CloseEntryQueue);
    } else if s.threads[t].k == CloseDone {
      assert Enabled(s, t, FinishClose);
    } else {
      assert Enabled(s, t, Destroy);
    }
  }

  lemma AnswererCanStep(s: State, t: Tid)
    requires Connections(s) && Servers(s) && t in s.threads && s.threads[t].Answering?
    ensures CanStep(s, t)
  {
    assert ThreadServes(s, t) && ConnectionOk(s, s.threads[t].r.client);
    assert Enabled(s, t, if s.threads[t].held then Unlock else Reply);
  }

  lemma ReaderCanStep(s: State, t: Tid)
    requires t in s.threads && Running(s.threads[t])
    requires s.threads[t].Reading? || s.threads[t].Pushing? || s.threads[t].Deregistering?
    ensures CanStep(s, t)
  {
    if s.threads[t].Reading? {
      assert Enabled(s, t, Read(Quit));
    } else if s.threads[t].Pushing? {
      var w := WakeChoice(s.threads, NotEmpty(TaskQueue));
      assert Enabled(s, t, Submit(w));
    } else {
      assert Enabled(s, t, Deregister);
    }
  }

  lemma WorkerCanStep(s: State, t: Tid)
    requires t in s.threads && Running(s.threads[t]) && (s.threads[t].Carrying? || s.threads[t].Given?)
    ensures CanStep(s, t)
  {
    var c := s.threads[t].r.client;
    if s.threads[t].Given? {
      var w := WakeChoice(s.threads, Available(c));
      assert Enabled(s, t, if c in s.entries then FinishGive(w) else Fault);
    } else {
      match s.threads[t].g
      case Working => assert Enabled(s, t, Process);
      case LookHold => assert Enabled(s, t, Look);
      case GiveHold => assert Enabled(s, t, if c in s.entries then Peek else Fault);
      case GiveQueueHold(_) =>
        var w := WakeChoice(s.threads, EntryNotEmpty(c));
        assert Enabled(s, t, if c in s.entries then Give(w) else Fault);
    }
  }

  lemma MainCanStep(s: State, t: Tid)
    requires t in s.threads && Running(s.threads[t]) && RoleOf(s.threads[t]) == MainRole
    ensures CanStep(s, t)
  {
    match s.threads[t]
    case Accepting => assert Enabled(s, t, Stop);
    case Registering(_, _) => assert Enabled(s, t, Register);
    case Offering(_, _) =>
      var w := WakeChoice(s.threads, NotEmpty(ClientQueue));
      assert Enabled(s, t, Offer(w));
    case Shutting(_, _) => assert Enabled(s, t, Shut);
  }

  /** No running thread is ever stuck: the entry, the element, the response it needs is there. */
  lemma RunningCanStep(s: State, t: Tid)
    requires Reachable(s) && t in s.threads && Running(s.threads[t])
    ensures CanStep(s, t)
  {
    ReachableInv(s);
    var pc := s.threads[t];
    if pc.Popping? {
      PopperCanStep(s, t);
    } else if pc.Awaiting? {
      AwaiterCanStep(s, t);
    } else if pc.Carrying? || pc.Given? {
      WorkerCanStep(s, t);
    } else if RoleOf(pc) == MainRole {
      MainCanStep(s, t);
    } else if pc.Closing? {
      CloserCanStep(s, t);
    } else if pc.Answering? {
      AnswererCanStep(s, t);
    } else {
      ReaderCanStep(s, t);
    }
  }

  lemma HoldersRun(pc: Pc, m: Mutex)
    requires Holds(pc, m)
    ensures !AtEnd(pc)
  {
  }

  /**
   Whoever waits for a mutex waits for someone who can step: the owner, or the one thread
   that the owner is blocked by.
   */
  lemma MutexProgress(s: State, m: Mutex)
    requires Reachable(s) && m in s.owner
    ensures exists u :: CanStep(s, u) && (u == s.owner[m] || BlockedOn(s, s.owner[m], u))
  {
    ReachableInv(s);
    OwnersGetOn(s, m);
    assert MutexOk(s, m);
    var t := s.owner[m];
    HoldersRun(s.threads[t], m);
    if Wants(s.threads[t]).None? {
      RunningCanStep(s, t);
    } else {
      var n := Wants(s.threads[t]).value;
      if n !in s.owner {
        assert Enabled(s, t, Acquire);
      } else {
        var u := s.owner[n];
        assert MutexOk(s, n) && BlockedOn(s, t, u);
        OwnersGetOn(s, n);
        HoldersRun(s.threads[u], n);
        RunningCanStep(s, u);
      }
    }
  }
}
