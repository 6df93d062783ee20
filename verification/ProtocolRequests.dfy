/** Where every submitted request is, and who has it: exactly one place at a time. */
module ProtocolRequests {
  import opened Types
  import opened Protocol
  import opened ProtocolInvariants

  /** What the shared state says of request `r` is what its history says. */
  ghost predicate RequestOk(s: State, r: Request) {
    && (r in s.fate ==>
          && r.id < s.nextRequest
          && Pushable(r.kind)
          && r.client in s.conn
          && WasServed(s.conn[r.client])
          && (s.fate[r].Dropped? ==> s.tasks.closed)
          && (s.fate[r].Discarded? ==> !Listed(s.conn[r.client])))
    && s.tasks.items[r] == One(r in s.fate && s.fate[r].Queued?)
    && s.popped[r] == One(r in s.fate && !s.fate[r].Queued? && !s.fate[r].Dropped?)
  }

  ghost predicate ResponseOk(s: State, c: Cid, r: Request) {
    c in s.entries ==> s.entries[c].items[r] == One(r.client == c && r in s.fate && s.fate[r].Delivered?)
  }

  ghost predicate Requests(s: State) {
    && (forall r :: RequestOk(s, r))
    && (forall c, r :: ResponseOk(s, c, r))
  }

  /** The request in a thread's hands is where its history puts it. */
  ghost predicate HandOk(s: State, t: Tid)
    requires t in s.threads
  {
    match s.threads[t]
    case Pushing(r, _) => r !in s.fate && r.id < s.nextRequest && Pushable(r.kind)
    case Awaiting(r, _) => r in s.fate && !s.fate[r].Consumed?
    case Carrying(r, _) => r in s.fate && s.fate[r] == Held(t)
    case Given(r, _) => r in s.fate && (s.fate[r].Delivered? || s.fate[r].Discarded?)
    case _ => true
  }

  ghost predicate HolderOk(s: State, r: Request)
    requires r in s.fate
  {
    s.fate[r].Held? ==> s.fate[r].t in s.threads && s.threads[s.fate[r].t].Carrying? && s.threads[s.fate[r].t].r == r
  }

  ghost predicate Hands(s: State) {
    && (forall t :: t in s.threads ==> HandOk(s, t))
    && (forall r :: r in s.fate ==> HolderOk(s, r))
  }

  /** What request `x` has been through before step `a` of thread `t` decides its fate. */
  ghost predicate FateBefore(s: State, t: Tid, a: Step, x: Request)
    requires t in s.threads
  {
    match a
    case Submit(_) => x !in s.fate && s.threads[t] == Pushing(x, true)
    case PopRequest(_) => x in s.fate && s.fate[x].Queued?
    case Take(_) =>
      && x in s.fate && s.fate[x].Delivered?
      && s.threads[t].Awaiting? && s.threads[t].w == TakeHold && s.threads[t].r.client == x.client
    case _ => x in s.fate && s.fate[x] == Held(t) && s.threads[t].Carrying? && s.threads[t].r == x
  }

  lemma OldFateOfQueued(s: State, t: Tid, a: Step)
    requires Requests(s) && Enabled(s, t, a) && (a.PopRequest? || a.Take?)
    ensures FateBefore(s, t, a, NewFate(s, t, a).value.0)
  {
    assert RequestOk(s, a.r);
    if a.Take? {
      assert ResponseOk(s, s.threads[t].r.client, a.r);
    }
  }

  lemma OldFateInHand(s: State, t: Tid, a: Step)
    requires Requests(s) && HandOkIfAny(s, t) && Enabled(s, t, a) && NewFate(s, t, a).Some?
    requires !a.PopRequest? && !a.Take?
    ensures !a.Process? && FateBefore(s, t, a, NewFate(s, t, a).value.0)
  {
    assert RequestOk(s, NewFate(s, t, a).value.0);
  }

  ghost predicate HandOkIfAny(s: State, t: Tid) {
    t in s.threads ==> HandOk(s, t)
  }

  lemma OldFate(s: State, t: Tid, a: Step)
    requires Requests(s) && HandOkIfAny(s, t) && Enabled(s, t, a)
    ensures NewFate(s, t, a).Some? ==> !a.Process? && FateBefore(s, t, a, NewFate(s, t, a).value.0)
  {
    if a.PopRequest? || a.Take? {
      OldFateOfQueued(s, t, a);
    } else if NewFate(s, t, a).Some? {
      OldFateInHand(s, t, a);
    }
  }

  lemma OtherRequest(s: State, t: Tid, a: Step, r: Request)
    requires Enabled(s, t, a)
    requires NewFate(s, t, a).Some? ==> r != NewFate(s, t, a).value.0
    ensures var s' := Post(s, t, a);
            && s'.tasks.items[r] == s.tasks.items[r]
            && s'.popped[r] == s.popped[r]
            && (r in s'.fate <==> r in s.fate)
            && (r in s.fate ==> s'.fate[r] == s.fate[r])
  {
    OtherRequestItems(s, t, a, r);
  }

  lemma OtherRequestItems(s: State, t: Tid, a: Step, r: Request)
    requires Enabled(s, t, a)
    requires NewFate(s, t, a).Some? ==> r != NewFate(s, t, a).value.0
    ensures TasksAfter(s, t, a).items[r] == s.tasks.items[r]
  {
  }

  /** A connection that has been served stays so, and once unlisted is not listed again. */
  lemma ServedStays(s: State, t: Tid, a: Step, c: Cid)
    requires ThreadServesIfAny(s, t) && Connections(s) && Enabled(s, t, a)
    requires c in s.conn && WasServed(s.conn[c])
    ensures var conn := Update(s.conn, NewConn(s, t, a));
            && c in conn
            && WasServed(conn[c])
            && (Listed(conn[c]) ==> Listed(s.conn[c]))
  {
    assert ConnectionOk(s, c);
    if NewConn(s, t, a).Some? && NewConn(s, t, a).value.0 == c {
      TargetConnectionMoved(s, t, a);
    }
  }

  lemma OtherRequestKept(s: State, t: Tid, a: Step, r: Request)
    requires ThreadServesIfAny(s, t) && Connections(s) && RequestOk(s, r) && Enabled(s, t, a)
    requires NewFate(s, t, a).Some? ==> r != NewFate(s, t, a).value.0
    ensures RequestOk(Post(s, t, a), r)
  {
    OtherRequest(s, t, a, r);
    ClosedAfter(s, t, a);
    if r in s.fate {
      ServedStays(s, t, a, r.client);
    }
  }

  lemma SubmittedRequest(s: State, t: Tid, a: Step)
    requires ThreadServesIfAny(s, t) && Connections(s) && Requests(s) && HandOkIfAny(s, t) && Enabled(s, t, a) && a.Submit?
    ensures RequestOk(Post(s, t, a), s.threads[t].r)
  {
    assert HandOk(s, t) && RequestOk(s, s.threads[t].r);
  }

  lemma PoppedRequest(s: State, t: Tid, a: Step)
    requires Requests(s) && Enabled(s, t, a) && a.PopRequest?
    ensures RequestOk(Post(s, t, a), a.r)
  {
    assert RequestOk(s, a.r);
  }

  lemma TakenResponse(s: State, t: Tid, a: Step)
    requires Requests(s) && Enabled(s, t, a) && a.Take?
    ensures RequestOk(Post(s, t, a), a.r)
  {
    assert ResponseOk(s, s.threads[t].r.client, a.r) && RequestOk(s, a.r);
  }

  lemma AnsweredRequest(s: State, t: Tid, a: Step)
    requires Connections(s) && Requests(s) && HandOkIfAny(s, t) && Enabled(s, t, a)
    requires NewFate(s, t, a).Some? && (a.Look? || a.Give? || a.Fault?)
    ensures RequestOk(Post(s, t, a), s.threads[t].r)
  {
    var r := s.threads[t].r;
    assert HandOk(s, t) && RequestOk(s, r) && ConnectionOk(s, r.client);
  }

  lemma RequestDecided(s: State, t: Tid, a: Step)
    requires ThreadServesIfAny(s, t) && Connections(s) && Requests(s) && HandOkIfAny(s, t) && Enabled(s, t, a)
    requires NewFate(s, t, a).Some? && !a.Process?
    ensures RequestOk(Post(s, t, a), NewFate(s, t, a).value.0)
  {
    if a.Submit? {
      SubmittedRequest(s, t, a);
    } else if a.PopRequest? {
      PoppedRequest(s, t, a);
    } else if a.Take? {
      TakenResponse(s, t, a);
    } else {
      AnsweredRequest(s, t, a);
    }
  }

  lemma RequestKept(s: State, t: Tid, a: Step, r: Request)
    requires ThreadServesIfAny(s, t) && Connections(s) && Requests(s) && HandOkIfAny(s, t) && Enabled(s, t, a)
    ensures RequestOk(Post(s, t, a), r)
  {
    assert RequestOk(s, r);
    OldFate(s, t, a);
    if NewFate(s, t, a).Some? && r == NewFate(s, t, a).value.0 {
      RequestDecided(s, t, a);
    } else {
      OtherRequestKept(s, t, a, r);
    }
  }

  predicate EntryStep(a: Step) {
    a.Register? || a.Take? || a.Give? || a.CloseEntryQueue? || a.Destroy?
  }

  lemma ResponseKeptByOthers(s: State, t: Tid, a: Step, c: Cid, r: Request)
    requires ResponseOk(s, c, r) && Requests(s) && HandOkIfAny(s, t) && Enabled(s, t, a) && !EntryStep(a)
    ensures ResponseOk(Post(s, t, a), c, r)
  {
    OldFate(s, t, a);
    OtherRequestIfAny(s, t, a, r);
  }

  lemma OtherRequestIfAny(s: State, t: Tid, a: Step, r: Request)
    requires Enabled(s, t, a)
    ensures NewFate(s, t, a).None? || r != NewFate(s, t, a).value.0 ==>
              var s' := Post(s, t, a);
              (r in s'.fate <==> r in s.fate) && (r in s.fate ==> s'.fate[r] == s.fate[r])
  {
  }

  lemma ResponseKeptByRegister(s: State, t: Tid, a: Step, c: Cid, r: Request)
    requires Connections(s) && Requests(s) && HandOkIfAny(s, t) && ThreadServesIfAny(s, t) && Enabled(s, t, a) && a.Register?
    ensures ResponseOk(Post(s, t, a), c, r)
  {
    assert ResponseOk(s, c, r);
    assert RequestOk(s, r) && ConnectionOk(s, c);
  }

  lemma ResponseKeptByTake(s: State, t: Tid, a: Step, c: Cid, r: Request)
    requires Connections(s) && Requests(s) && HandOkIfAny(s, t) && ThreadServesIfAny(s, t) && Enabled(s, t, a) && a.Take?
    ensures ResponseOk(Post(s, t, a), c, r)
  {
    assert ResponseOk(s, c, r);
    assert ResponseOk(s, s.threads[t].r.client, a.r);
  }

  lemma ResponseKeptByGive(s: State, t: Tid, a: Step, c: Cid, r: Request)
    requires Connections(s) && Requests(s) && HandOkIfAny(s, t) && ThreadServesIfAny(s, t) && Enabled(s, t, a) && a.Give?
    ensures ResponseOk(Post(s, t, a), c, r)
  {
    assert ResponseOk(s, c, r);
  }

  lemma ResponseKeptByClose(s: State, t: Tid, a: Step, c: Cid, r: Request)
    requires Connections(s) && Requests(s) && HandOkIfAny(s, t) && ThreadServesIfAny(s, t) && Enabled(s, t, a) && a.CloseEntryQueue?
    ensures ResponseOk(Post(s, t, a), c, r)
  {
    assert ResponseOk(s, c, r);
  }

  lemma ResponseKeptByDestroy(s: State, t: Tid, a: Step, c: Cid, r: Request)
    requires Connections(s) && Requests(s) && HandOkIfAny(s, t) && ThreadServesIfAny(s, t) && Enabled(s, t, a) && a.Destroy?
    ensures ResponseOk(Post(s, t, a), c, r)
  {
    assert ResponseOk(s, c, r);
  }

  lemma ResponseKeptByEntryStep(s: State, t: Tid, a: Step, c: Cid, r: Request)
    requires Connections(s) && Requests(s) && HandOkIfAny(s, t) && ThreadServesIfAny(s, t) && Enabled(s, t, a)
    requires EntryStep(a)
    ensures ResponseOk(Post(s, t, a), c, r)
  {
    if a.Register? {
      ResponseKeptByRegister(s, t, a, c, r);
    } else if a.Take? {
      ResponseKeptByTake(s, t, a, c, r);
    } else if a.Give? {
      ResponseKeptByGive(s, t, a, c, r);
    } else if a.CloseEntryQueue? {
      ResponseKeptByClose(s, t, a, c, r);
    } else {
      ResponseKeptByDestroy(s, t, a, c, r);
    }
  }

  lemma RequestsKept(s: State, t: Tid, a: Step)
    requires Servers(s) && Connections(s) && Requests(s) && Hands(s) && Enabled(s, t, a)
    ensures Requests(Post(s, t, a))
  {
    forall r
      ensures RequestOk(Post(s, t, a), r)
    {
      RequestKept(s, t, a, r);
    }
    forall c, r
      ensures ResponseOk(Post(s, t, a), c, r)
    {
      assert ResponseOk(s, c, r);
      if EntryStep(a) {
        ResponseKeptByEntryStep(s, t, a, c, r);
      } else {
        ResponseKeptByOthers(s, t, a, c, r);
      }
    }
  }

  // ---------- Hands ----------

  /** The fate that a step decides, and of which request. */
  ghost predicate Decides(s: State, s': State, t: Tid, a: Step, change: Option<(Request, Fate)>) {
    && s'.fate == Update(s.fate, change)
    && s'.nextRequest >= s.nextRequest
    && t in s.threads
    && (change.Some? ==>
          && !a.Process?
          && FateBefore(s, t, a, change.value.0)
          && (change.value.1.Consumed? <==> a.Take?))
  }

  lemma StepDecides(s: State, t: Tid, a: Step)
    requires Requests(s) && HandOkIfAny(s, t) && Enabled(s, t, a)
    ensures Decides(s, Post(s, t, a), t, a, NewFate(s, t, a))
  {
    OldFate(s, t, a);
  }

  /** Two threads that work for the same served connection are the same thread. */
  lemma OneServer(s: State, t: Tid, u: Tid)
    requires Servers(s) && t in s.threads && u in s.threads
    requires ConnectionOf(t, s.threads[t]).Some? && ConnectionOf(u, s.threads[u]).Some?
    requires ConnectionOf(t, s.threads[t]).value.0 == ConnectionOf(u, s.threads[u]).value.0
    requires ConnectionOf(t, s.threads[t]).value.1.ServedBy? || ConnectionOf(t, s.threads[t]).value.1.ClosedBy?
    ensures t == u
  {
    assert ThreadServes(s, t) && ThreadServes(s, u);
    ConnectionRole(t, s.threads[t]);
    ConnectionRole(u, s.threads[u]);
  }

  /** Two threads that hold the same mutex are the same thread. */
  lemma OneHolder(s: State, t: Tid, u: Tid, m: Mutex)
    requires Mutexes(s) && t in s.threads && u in s.threads
    requires Holds(s.threads[t], m) && Holds(s.threads[u], m)
    ensures t == u
  {
    assert MutexOk(s, m);
  }

  lemma OtherHandKept(s: State, s': State, t: Tid, a: Step, change: Option<(Request, Fate)>, u: Tid)
    requires Servers(s) && Mutexes(s) && Decides(s, s', t, a, change)
    requires u != t && u in s.threads && HandOk(s, u)
    requires u in s'.threads && StaysOrWakes(s.threads[u], s'.threads[u])
    ensures HandOk(s', u)
  {
    if change.Some? {
      var x := change.value.0;
      match s.threads[u]
      case Pushing(r, _) => if r == x && a.Submit? { OneServer(s, t, u); }
      case Awaiting(r, _) => if r == x && a.Take? { OneServer(s, t, u); }
      case Given(r, _) => if r == x && a.Take? { OneHolder(s, t, u, EntryMutex(r.client)); }
      case _ =>
    }
  }

  lemma TargetHand(s: State, t: Tid, a: Step)
    requires Requests(s) && HandOkIfAny(s, t) && Enabled(s, t, a) && !ClientStep(a)
    ensures HandOk(Post(s, t, a), t)
  {
    assert Post(s, t, a).threads[t] == Target(s, t, a);
  }

  lemma TargetHandOfClient(s: State, t: Tid, a: Step)
    requires Requests(s) && HandOkIfAny(s, t) && Enabled(s, t, a) && ClientStep(a)
    ensures HandOk(Post(s, t, a), t)
  {
    assert Post(s, t, a).threads[t] == Target(s, t, a);
    if a.Read? {
      assert RequestOk(s, Request(s.nextRequest, s.threads[t].c, a.kind));
    }
  }

  /** A worker carries its request until the step that decides its fate. */
  lemma TargetCarries(s: State, t: Tid, a: Step)
    requires Enabled(s, t, a)
    ensures s.threads[t].Carrying? && NewFate(s, t, a).None? && !a.Process? ==>
              Target(s, t, a).Carrying? && Target(s, t, a).r == s.threads[t].r
    ensures s.threads[t].Carrying? && NewFate(s, t, a).Some? ==> NewFate(s, t, a).value.0 == s.threads[t].r
    ensures NewFate(s, t, a).Some? && NewFate(s, t, a).value.1.Held? ==>
              NewFate(s, t, a).value.1.t == t && Target(s, t, a) == Carrying(NewFate(s, t, a).value.0, Working)
  {
    if ClientStep(a) {
      TargetRoleOfClient(s, t, a);
    }
  }

  lemma HolderKept(s: State, s': State, t: Tid, pc: Pc, change: Option<(Request, Fate)>, r: Request)
    requires Moved(s.threads, s'.threads, t, pc)
    requires s'.fate == Update(s.fate, change)
    requires s.threads[t].Carrying? && change.None? ==> pc.Carrying? && pc.r == s.threads[t].r
    requires s.threads[t].Carrying? && change.Some? ==> change.value.0 == s.threads[t].r
    requires change.Some? && change.value.1.Held? ==> change.value.1.t == t && pc == Carrying(change.value.0, Working)
    requires r in s'.fate && (r in s.fate ==> HolderOk(s, r))
    ensures HolderOk(s', r)
  {
  }

  lemma HandsKept(s: State, t: Tid, a: Step)
    requires Servers(s) && Mutexes(s) && Requests(s) && Hands(s) && Enabled(s, t, a)
    ensures Hands(Post(s, t, a))
  {
    ThreadsStep(s, t, a);
    StepDecides(s, t, a);
    TargetCarries(s, t, a);
    ProcessAnswers(s, t, a);
    if ClientStep(a) {
      TargetHandOfClient(s, t, a);
    } else {
      TargetHand(s, t, a);
    }
    HandsKeptBy(s, Post(s, t, a), t, a, Target(s, t, a), NewFate(s, t, a));
  }

  /** A popped request always has a response: only pushable commands are queued. */
  lemma ProcessAnswers(s: State, t: Tid, a: Step)
    requires Requests(s) && HandOkIfAny(s, t) && Enabled(s, t, a)
    ensures a.Process? ==> Target(s, t, a) == Carrying(s.threads[t].r, LookWant)
  {
    if a.Process? {
      assert RequestOk(s, s.threads[t].r);
    }
  }

  lemma HandsKeptBy(s: State, s': State, t: Tid, a: Step, pc: Pc, change: Option<(Request, Fate)>)
    requires Servers(s) && Mutexes(s) && Hands(s) && Moved(s.threads, s'.threads, t, pc)
    requires Decides(s, s', t, a, change) && HandOk(s', t)
    requires s.threads[t].Carrying? && change.None? ==> pc.Carrying? && pc.r == s.threads[t].r
    requires s.threads[t].Carrying? && change.Some? ==> change.value.0 == s.threads[t].r
    requires change.Some? && change.value.1.Held? ==> change.value.1.t == t && pc == Carrying(change.value.0, Working)
    ensures Hands(s')
  {
    forall u | u in s'.threads && u != t
      ensures HandOk(s', u)
    {
      OtherHandKept(s, s', t, a, change, u);
    }
    forall r | r in s'.fate
      ensures HolderOk(s', r)
    {
      HolderKept(s, s', t, pc, change, r);
    }
  }
}
