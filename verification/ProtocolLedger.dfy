/**
 The request ledger: what a connection has submitted and not consumed is what its waits
 have given up on, plus the request it is waiting for now.  Which response answers which
 request follows from it.
 */
module ProtocolLedger {
  import opened Types
  import opened Protocol
  import opened ProtocolInvariants
  import opened ProtocolRequests
  import opened ProtocolHandshake

  /** The requests of `c` that its thread has submitted and whose response it has not taken. */
  ghost function Outstanding(s: State, c: Cid): set<Request> {
    set r | r in s.fate && r.client == c && !s.fate[r].Consumed?
  }

  predicate AwaitsFor(pc: Pc, c: Cid) {
    pc.Awaiting? && pc.r.client == c
  }

  /** The client thread of `c` is waiting for a response. */
  ghost predicate AwaitingOn(s: State, c: Cid) {
    exists t :: t in s.threads && AwaitsFor(s.threads[t], c)
  }

  ghost predicate LedgerOk(s: State, c: Cid) {
    |Outstanding(s, c)| == Lost(s, c) + One(AwaitingOn(s, c))
  }

  ghost predicate Ledger(s: State) {
    forall c :: LedgerOk(s, c)
  }

  // ---------- Who awaits ----------

  ghost predicate OthersAwait(th: map<Tid, Pc>, t: Tid, c: Cid) {
    exists u :: u in th && u != t && AwaitsFor(th[u], c)
  }

  lemma AwaitingSplits(s: State, t: Tid, c: Cid)
    requires t in s.threads
    ensures AwaitingOn(s, c) <==> OthersAwait(s.threads, t, c) || AwaitsFor(s.threads[t], c)
  {
  }

  lemma WakingAwaits(pc: Pc, pc': Pc, c: Cid)
    requires StaysOrWakes(pc, pc')
    ensures AwaitsFor(pc', c) <==> AwaitsFor(pc, c)
  {
  }

  lemma OthersStillAwait(th: map<Tid, Pc>, th': map<Tid, Pc>, t: Tid, pc: Pc, c: Cid)
    requires Moved(th, th', t, pc)
    ensures OthersAwait(th', t, c) <==> OthersAwait(th, t, c)
  {
    forall u | u in th && u != t
      ensures AwaitsFor(th'[u], c) <==> AwaitsFor(th[u], c)
    {
      WakingAwaits(th[u], th'[u], c);
    }
  }

  /** While `t` serves `c`, no other thread waits for it. */
  lemma OnlyServerAwaits(s: State, t: Tid, c: Cid)
    requires Servers(s) && t in s.threads && ConnectionOf(t, s.threads[t]) == Some((c, ServedBy(t)))
    ensures !OthersAwait(s.threads, t, c)
  {
    forall u | u in s.threads && AwaitsFor(s.threads[u], c)
      ensures u == t
    {
      OneServer(s, t, u);
    }
  }

  // ---------- What a step does to the ledger ----------

  /** The wait ends without a response. */
  ghost predicate Loses(s: State, t: Tid, a: Step) {
    && a.Check? && t in s.threads
    && s.threads[t].Awaiting? && s.threads[t].w.LockHold? && s.threads[t].w.rc != InTime
    && s.threads[t].r.client in s.entries && s.entries[s.threads[t].r.client].items == multiset{}
  }

  lemma LostStep(s: State, t: Tid, a: Step, c: Cid)
    requires Enabled(s, t, a)
    ensures Lost(Post(s, t, a), c) == Lost(s, c) + One(Loses(s, t, a) && s.threads[t].r.client == c)
  {
    assert Post(s, t, a).lost == LostAfter(s, t, a);
  }

  /** A waiting thread finds its entry and, once it goes to take a response, finds one. */
  lemma WaitGoesOn(s: State, t: Tid, a: Step)
    requires Connections(s) && Servers(s) && HandshakesAt(s, t, t) && Enabled(s, t, a)
    ensures a.Find? ==> s.threads[t].r.client in s.table.items
    ensures !a.TakeNothing?
  {
    if a.Find? {
      assert ThreadServes(s, t) && ConnectionOk(s, s.threads[t].r.client);
    }
  }

  lemma TargetAwaits(s: State, t: Tid, a: Step)
    requires Enabled(s, t, a)
    requires a.Find? ==> s.threads[t].r.client in s.table.items
    requires !a.TakeNothing?
    ensures a.Submit? ==> s.threads[t].Pushing? && Target(s, t, a) == Awaiting(s.threads[t].r, FindWant)
    ensures a.Take? || Loses(s, t, a) ==> s.threads[t].Awaiting? && !Target(s, t, a).Awaiting?
    ensures !a.Submit? && !a.Take? && !Loses(s, t, a) ==>
              (Target(s, t, a).Awaiting? <==> s.threads[t].Awaiting?)
              && (s.threads[t].Awaiting? ==> Target(s, t, a).r == s.threads[t].r)
  {
    if ClientStep(a) && !a.Submit? && !a.Take? && !Loses(s, t, a) {
      TargetAwaitsOfClient(s, t, a);
    }
  }

  lemma TargetAwaitsOfClient(s: State, t: Tid, a: Step)
    requires Enabled(s, t, a) && ClientStep(a) && !a.Submit? && !a.Take? && !Loses(s, t, a)
    requires a.Find? ==> s.threads[t].r.client in s.table.items
    requires !a.TakeNothing?
    ensures Target(s, t, a).Awaiting? <==> s.threads[t].Awaiting?
    ensures s.threads[t].Awaiting? ==> Target(s, t, a).r == s.threads[t].r
  {
  }

  lemma OutstandingAfter(s: State, s': State, change: Option<(Request, Fate)>, c: Cid)
    requires s'.fate == Update(s.fate, change)
    ensures change.None? || change.value.0.client != c ==> Outstanding(s', c) == Outstanding(s, c)
    ensures change.Some? && change.value.0.client == c ==>
              Outstanding(s', c) == if change.value.1.Consumed? then Outstanding(s, c) - {change.value.0}
                                    else Outstanding(s, c) + {change.value.0}
  {
  }

  lemma LedgerKeptBySubmit(s: State, s': State, t: Tid, a: Step, pc: Pc, change: Option<(Request, Fate)>, c: Cid)
    requires LedgerOk(s, c) && Servers(s) && Moved(s.threads, s'.threads, t, pc)
    requires a.Submit? && Decides(s, s', t, a, change) && change.Some? && s.threads[t].Pushing?
    requires pc == Awaiting(s.threads[t].r, FindWant)
    requires Lost(s', c) == Lost(s, c)
    ensures LedgerOk(s', c)
  {
    var r := s.threads[t].r;
    AwaitingSplits(s, t, c);
    AwaitingSplits(s', t, c);
    OthersStillAwait(s.threads, s'.threads, t, pc, c);
    OutstandingAfter(s, s', change, c);
    if c == r.client {
      OnlyServerAwaits(s, t, c);
      assert r !in Outstanding(s, c);
    }
  }

  lemma LedgerKeptByTake(s: State, s': State, t: Tid, pc: Pc, x: Request, c: Cid)
    requires LedgerOk(s, c) && Servers(s) && Moved(s.threads, s'.threads, t, pc)
    requires AwaitsFor(s.threads[t], x.client) && !pc.Awaiting?
    requires x in s.fate && !s.fate[x].Consumed? && s'.fate == s.fate[x := Consumed]
    requires Lost(s', c) == Lost(s, c)
    ensures LedgerOk(s', c)
  {
    AwaitingSplits(s, t, c);
    AwaitingSplits(s', t, c);
    OthersStillAwait(s.threads, s'.threads, t, pc, c);
    OutstandingAfter(s, s', Some((x, Consumed)), c);
    if c == x.client {
      OnlyServerAwaits(s, t, c);
      RemoveOne(Outstanding(s, c), x);
    }
  }

  lemma RemoveOne(o: set<Request>, x: Request)
    requires x in o
    ensures |o - {x}| == |o| - 1
  {
  }

  lemma LedgerKeptByLoss(s: State, s': State, t: Tid, pc: Pc, c: Cid)
    requires LedgerOk(s, c) && Servers(s) && Moved(s.threads, s'.threads, t, pc)
    requires s.threads[t].Awaiting? && !pc.Awaiting? && s'.fate == s.fate
    requires Lost(s', c) == Lost(s, c) + One(s.threads[t].r.client == c)
    ensures LedgerOk(s', c)
  {
    AwaitingSplits(s, t, c);
    AwaitingSplits(s', t, c);
    OthersStillAwait(s.threads, s'.threads, t, pc, c);
    OutstandingAfter(s, s', None, c);
    if s.threads[t].r.client == c {
      OnlyServerAwaits(s, t, c);
    }
  }

  lemma LedgerKeptByOthers(s: State, s': State, t: Tid, a: Step, pc: Pc, change: Option<(Request, Fate)>, c: Cid)
    requires LedgerOk(s, c) && Moved(s.threads, s'.threads, t, pc)
    requires !a.Submit? && !a.Take? && Decides(s, s', t, a, change)
    requires pc.Awaiting? <==> s.threads[t].Awaiting?
    requires pc.Awaiting? ==> pc.r == s.threads[t].r
    requires Lost(s', c) == Lost(s, c)
    ensures LedgerOk(s', c)
  {
    AwaitingSplits(s, t, c);
    AwaitingSplits(s', t, c);
    OthersStillAwait(s.threads, s'.threads, t, pc, c);
    OutstandingAfter(s, s', change, c);
    if change.Some? && change.value.0.client == c {
      assert change.value.0 in Outstanding(s, c);
      assert Outstanding(s', c) == Outstanding(s, c);
    }
  }

  lemma DecidesWhen(s: State, t: Tid, a: Step)
    requires Enabled(s, t, a)
    ensures a.Submit? || a.Take? ==> NewFate(s, t, a).Some?
    ensures a.Check? ==> NewFate(s, t, a).None?
  {
  }

  lemma LedgerKept(s: State, t: Tid, a: Step, c: Cid)
    requires Connections(s) && Servers(s) && Requests(s) && Hands(s) && HandshakesAt(s, t, t)
    requires LedgerOk(s, c) && Enabled(s, t, a)
    ensures LedgerOk(Post(s, t, a), c)
  {
    var s' := Post(s, t, a);
    ThreadsStep(s, t, a);
    WaitGoesOn(s, t, a);
    TargetAwaits(s, t, a);
    LostStep(s, t, a, c);
    StepDecides(s, t, a);
    DecidesWhen(s, t, a);
    LedgerKeptBy(s, s', t, a, Target(s, t, a), NewFate(s, t, a), Loses(s, t, a), c);
  }

  lemma LedgerKeptBy(s: State, s': State, t: Tid, a: Step, pc: Pc, change: Option<(Request, Fate)>, loses: bool, c: Cid)
    requires LedgerOk(s, c) && Servers(s) && Moved(s.threads, s'.threads, t, pc) && Decides(s, s', t, a, change)
    requires a.Submit? || a.Take? ==> change.Some?
    requires loses ==> a.Check? && change.None?
    requires a.Submit? ==> s.threads[t].Pushing? && pc == Awaiting(s.threads[t].r, FindWant)
    requires a.Take? || loses ==> s.threads[t].Awaiting? && !pc.Awaiting?
    requires !a.Submit? && !a.Take? && !loses ==>
      (pc.Awaiting? <==> s.threads[t].Awaiting?) && (s.threads[t].Awaiting? ==> pc.r == s.threads[t].r)
    requires Lost(s', c) == Lost(s, c) + One(loses && s.threads[t].r.client == c)
    ensures LedgerOk(s', c)
  {
    if a.Submit? {
      LedgerKeptBySubmit(s, s', t, a, pc, change, c);
    } else if a.Take? {
      LedgerKeptByTake(s, s', t, pc, change.value.0, c);
    } else if loses {
      LedgerKeptByLoss(s, s', t, pc, c);
    } else {
      LedgerKeptByOthers(s, s', t, a, pc, change, c);
    }
  }

  // ---------- Which response answers which request ----------

  /** The answer is for the same connection and, while no wait has failed, for that request. */
  predicate AnswerFits(r: Request, answer: Answer, lost: nat) {
    && (answer.Answered? ==> answer.request.client == r.client)
    && (lost == 0 ==> answer == Answered(r))
  }

  ghost predicate LogOk(s: State, c: Cid) {
    c in s.log ==> forall i :: 0 <= i < |s.log[c]| ==>
      s.log[c][i].request.client == c && AnswerFits(s.log[c][i].request, s.log[c][i].answer, Lost(s, c))
  }

  ghost predicate AnswerOk(s: State, t: Tid)
    requires t in s.threads
  {
    match s.threads[t]
    case Answering(r, answer, _) => AnswerFits(r, answer, Lost(s, r.client))
    case Faulted(r) => Lost(s, r.client) > 0
    case _ => true
  }

  ghost predicate Answers(s: State) {
    && (forall c :: LogOk(s, c))
    && (forall t :: t in s.threads ==> AnswerOk(s, t))
  }

  /** With no failed wait, the request a client thread awaits is the only outstanding one. */
  lemma OnlyOutstanding(s: State, t: Tid, x: Request)
    requires LedgerOk(s, x.client) && HandOkIfAny(s, t) && t in s.threads && AwaitsFor(s.threads[t], x.client)
    requires x in Outstanding(s, x.client) && Lost(s, x.client) == 0
    ensures x == s.threads[t].r
  {
    AtMostOne(Outstanding(s, x.client), x, s.threads[t].r);
  }

  lemma AtMostOne(o: set<Request>, x: Request, y: Request)
    requires |o| <= 1 && x in o && y in o
    ensures x == y
  {
    assert |o - {x}| == |o| - 1;
  }

  /** With no failed wait, an unanswered request is being waited for and its entry is there. */
  lemma OutstandingIsAwaited(s: State, r: Request)
    requires Connections(s) && Servers(s) && LedgerOk(s, r.client) && r in Outstanding(s, r.client)
    requires Lost(s, r.client) == 0
    ensures AwaitingOn(s, r.client)
    ensures r.client in s.entries && r.client in s.table.items && !s.entries[r.client].closed
  {
    assert |Outstanding(s, r.client)| != 0;
    var t :| t in s.threads && AwaitsFor(s.threads[t], r.client);
    assert ThreadServes(s, t) && ConnectionOk(s, r.client);
  }

  lemma TakenAnswer(s: State, t: Tid, a: Step)
    requires Requests(s) && HandOkIfAny(s, t) && Enabled(s, t, a) && a.Take?
    requires LedgerOk(s, s.threads[t].r.client)
    ensures AnswerFits(s.threads[t].r, Answered(a.r), Lost(s, s.threads[t].r.client))
  {
    OldFate(s, t, a);
    if Lost(s, s.threads[t].r.client) == 0 {
      OnlyOutstanding(s, t, a.r);
    }
  }

  lemma FaultMeansLoss(s: State, t: Tid, a: Step)
    requires Connections(s) && Servers(s) && Ledger(s) && HandOkIfAny(s, t) && Enabled(s, t, a) && a.Fault?
    ensures Lost(s, s.threads[t].r.client) > 0
  {
    var r := s.threads[t].r;
    assert LedgerOk(s, r.client) && r in Outstanding(s, r.client);
    if Lost(s, r.client) == 0 {
      OutstandingIsAwaited(s, r);
    }
  }

  /** Where a thread with an answer in hand comes from. */
  lemma TargetAnswer(s: State, t: Tid, a: Step)
    requires Enabled(s, t, a) && !a.TakeNothing?
    ensures Target(s, t, a).Answering? ==>
      || (a.Take? && Target(s, t, a).r == s.threads[t].r && Target(s, t, a).answer == Answered(a.r))
      || (Loses(s, t, a) && Target(s, t, a).r == s.threads[t].r && !Target(s, t, a).answer.Answered?)
      || (s.threads[t].Answering? && Target(s, t, a).r == s.threads[t].r && Target(s, t, a).answer == s.threads[t].answer)
    ensures Target(s, t, a).Faulted? ==> a.Fault? && Target(s, t, a).r == s.threads[t].r
  {
    if ClientStep(a) {
      TargetRoleOfClient(s, t, a);
    }
  }

  lemma TargetAnswerOk(s: State, t: Tid, a: Step)
    requires Connections(s) && Servers(s) && Requests(s) && Ledger(s) && HandOkIfAny(s, t)
    requires AnswerOkIfAny(s, t) && Enabled(s, t, a) && !a.TakeNothing?
    requires t in Post(s, t, a).threads && Post(s, t, a).threads[t] == Target(s, t, a)
    ensures AnswerOk(Post(s, t, a), t)
  {
    TargetAnswer(s, t, a);
    if a.Take? {
      assert LedgerOk(s, s.threads[t].r.client);
      TakenAnswer(s, t, a);
    }
    if a.Fault? {
      FaultMeansLoss(s, t, a);
    }
    if Target(s, t, a).Answering? || Target(s, t, a).Faulted? {
      LostStep(s, t, a, Target(s, t, a).r.client);
    }
  }

  ghost predicate AnswerOkIfAny(s: State, t: Tid) {
    t in s.threads ==> AnswerOk(s, t)
  }

  lemma OtherAnswerKept(s: State, s': State, u: Tid)
    requires u in s.threads && AnswerOk(s, u) && u in s'.threads && StaysOrWakes(s.threads[u], s'.threads[u])
    requires forall c :: Lost(s', c) >= Lost(s, c)
    ensures AnswerOk(s', u)
  {
  }

  lemma LogStep(s: State, t: Tid, a: Step, c: Cid)
    requires Enabled(s, t, a)
    ensures var log := Post(s, t, a).log;
            c in log ==>
              || (c in s.log && log[c] == s.log[c])
              || log[c] == []
              || (a.Reply? && s.threads[t].Answering? && s.threads[t].r.client == c && c in s.log
                  && log[c] == s.log[c] + [Wait(s.threads[t].r, s.threads[t].answer)])
  {
    assert Post(s, t, a).log == LogAfter(s, t, a);
  }

  lemma LogKept(s: State, t: Tid, a: Step, c: Cid)
    requires LogOk(s, c) && AnswerOkIfAny(s, t) && Enabled(s, t, a)
    ensures LogOk(Post(s, t, a), c)
  {
    LogStep(s, t, a, c);
    LostStep(s, t, a, c);
  }

  lemma AnswersKept(s: State, t: Tid, a: Step)
    requires Connections(s) && Servers(s) && Requests(s) && Hands(s) && Handshakes(s) && Ledger(s) && Answers(s)
    requires Enabled(s, t, a)
    ensures Answers(Post(s, t, a))
  {
    var s' := Post(s, t, a);
    ThreadsStep(s, t, a);
    assert HandshakesAt(s, t, t);
    WaitGoesOn(s, t, a);
    TargetAnswerOk(s, t, a);
    forall c
      ensures LogOk(s', c) && Lost(s', c) >= Lost(s, c)
    {
      assert LogOk(s, c);
      LogKept(s, t, a, c);
      LostStep(s, t, a, c);
    }
    forall u | u in s'.threads && u != t
      ensures AnswerOk(s', u)
    {
      OtherAnswerKept(s, s', u);
    }
  }
}
