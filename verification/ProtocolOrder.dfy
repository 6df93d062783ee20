/**
 The order of the lines written to a connection: they follow the order in which its
 requests were made, and no response is written twice, whether or not waits were lost.
 */
module ProtocolOrder {
  import opened Types
  import opened Protocol
  import opened ProtocolInvariants
  import opened ProtocolRequests
  import opened ProtocolLedger

  ghost function LogOf(s: State, c: Cid): seq<Wait> {
    if c in s.log then s.log[c] else []
  }

  /** The response to `x` has been taken. */
  ghost predicate Spent(s: State, x: Request) {
    x in s.fate && s.fate[x].Consumed?
  }

  predicate Increasing(log: seq<Wait>) {
    forall i, j :: 0 <= i < j < |log| ==> log[i].request.id < log[j].request.id
  }

  /** Every line was written for a request with a smaller number. */
  predicate AllBelow(log: seq<Wait>, id: nat) {
    forall i :: 0 <= i < |log| ==> log[i].request.id < id
  }

  predicate AnswersOnce(log: seq<Wait>) {
    forall i, j :: 0 <= i < j < |log| && log[i].answer.Answered? && log[j].answer.Answered? ==>
      log[i].answer.request != log[j].answer.request
  }

  ghost predicate AllSpent(s: State, log: seq<Wait>) {
    forall i :: 0 <= i < |log| && log[i].answer.Answered? ==> Spent(s, log[i].answer.request)
  }

  predicate Unwritten(log: seq<Wait>, x: Request) {
    forall i :: 0 <= i < |log| && log[i].answer.Answered? ==> log[i].answer.request != x
  }

  ghost predicate LogOrderOk(s: State, c: Cid) {
    var log := LogOf(s, c);
    Increasing(log) && AllBelow(log, s.nextRequest) && AnswersOnce(log) && AllSpent(s, log)
  }

  /** The request that a client thread is busy with. */
  function InHand(pc: Pc): Option<Request> {
    match pc
    case Pushing(r, _) => Some(r)
    case Awaiting(r, _) => Some(r)
    case Answering(r, _, _) => Some(r)
    case _ => None
  }

  /** The request whose response a client thread is about to write. */
  function ToWrite(pc: Pc): Option<Request> {
    if pc.Answering? && pc.answer.Answered? then Some(pc.answer.request) else None
  }

  ghost predicate HandOrderOk(s: State, pc: Pc) {
    InHand(pc).Some? ==>
      var r := InHand(pc).value;
      && r.id < s.nextRequest && AllBelow(LogOf(s, r.client), r.id)
      && (ToWrite(pc).Some? ==> Spent(s, ToWrite(pc).value) && Unwritten(LogOf(s, r.client), ToWrite(pc).value))
  }

  ghost predicate Order(s: State) {
    && (forall c :: LogOrderOk(s, c))
    && (forall t :: t in s.threads ==> HandOrderOk(s, s.threads[t]))
  }

  // ---------- Steps ----------

  /** What the step writes to connection `c`, if anything. */
  ghost predicate Writes(s: State, s': State, t: Tid, c: Cid) {
    && t in s.threads && s.threads[t].Answering? && s.threads[t].r.client == c
    && LogOf(s', c) == LogOf(s, c) + [Wait(s.threads[t].r, s.threads[t].answer)]
  }

  lemma LogChanges(s: State, t: Tid, a: Step, c: Cid)
    requires Enabled(s, t, a)
    ensures var s' := Post(s, t, a);
            LogOf(s', c) == LogOf(s, c) || LogOf(s', c) == [] || (a.Reply? && Writes(s, s', t, c))
  {
    LogStep(s, t, a, c);
  }

  /** A response that was taken stays taken. */
  lemma SpentStays(s: State, s': State, t: Tid, a: Step, change: Option<(Request, Fate)>, x: Request)
    requires Decides(s, s', t, a, change) && Spent(s, x)
    ensures Spent(s', x)
  {
  }

  lemma LogOrderKept(s: State, s': State, t: Tid, a: Step, change: Option<(Request, Fate)>, c: Cid)
    requires LogOrderOk(s, c) && Decides(s, s', t, a, change) && HandOrderOk(s, s.threads[t])
    requires LogOf(s', c) == LogOf(s, c) || LogOf(s', c) == [] || Writes(s, s', t, c)
    ensures LogOrderOk(s', c)
  {
    forall x | Spent(s, x)
      ensures Spent(s', x)
    {
      SpentStays(s, s', t, a, change, x);
    }
  }

  lemma WakingHand(pc: Pc, pc': Pc)
    requires StaysOrWakes(pc, pc')
    ensures InHand(pc') == InHand(pc) && ToWrite(pc') == ToWrite(pc)
  {
  }

  /** The logs that threads other than the writer depend on do not grow. */
  lemma OtherOrderKept(s: State, s': State, t: Tid, a: Step, change: Option<(Request, Fate)>, u: Tid)
    requires Servers(s) && Decides(s, s', t, a, change) && u in s.threads && u != t && u in s'.threads
    requires HandOrderOk(s, s.threads[u]) && StaysOrWakes(s.threads[u], s'.threads[u])
    requires forall c :: LogOf(s', c) == LogOf(s, c) || LogOf(s', c) == [] || Writes(s, s', t, c)
    ensures HandOrderOk(s', s'.threads[u])
  {
    var pc := s.threads[u];
    WakingHand(pc, s'.threads[u]);
    if InHand(pc).Some? {
      if Writes(s, s', t, InHand(pc).value.client) {
        OneServer(s, t, u);
      }
      if ToWrite(pc).Some? {
        SpentStays(s, s', t, a, change, ToWrite(pc).value);
      }
    }
  }

  /** A thread takes a request in hand by reading it, and a response by taking it. */
  ghost predicate TakesInHand(s: State, a: Step, pc: Pc, pc': Pc) {
    && (InHand(pc').Some? ==>
          !a.Reply? && (InHand(pc') == InHand(pc) || (a.Read? && Pushable(a.kind) && InHand(pc').value.id == s.nextRequest)))
    && (ToWrite(pc').Some? ==> ToWrite(pc') == ToWrite(pc) || (a.Take? && ToWrite(pc').value == a.r))
  }

  lemma TargetInHandOfClient(s: State, t: Tid, a: Step)
    requires Enabled(s, t, a) && ClientStep(a)
    ensures TakesInHand(s, a, s.threads[t], Target(s, t, a))
  {
  }

  lemma TargetInHand(s: State, t: Tid, a: Step)
    requires Enabled(s, t, a)
    ensures TakesInHand(s, a, s.threads[t], Target(s, t, a))
  {
    if ClientStep(a) {
      TargetInHandOfClient(s, t, a);
    }
  }

  lemma TakenIsFresh(s: State, t: Tid, a: Step)
    requires Requests(s) && HandOkIfAny(s, t) && Enabled(s, t, a) && a.Take? && Order(s)
    ensures Spent(Post(s, t, a), a.r)
    ensures forall c :: Unwritten(LogOf(s, c), a.r)
  {
    OldFate(s, t, a);
    forall c
      ensures Unwritten(LogOf(s, c), a.r)
    {
      assert LogOrderOk(s, c);
    }
  }

  lemma TargetOrderKept(s: State, t: Tid, a: Step)
    requires Requests(s) && Hands(s) && Order(s) && Enabled(s, t, a)
    ensures HandOrderOk(Post(s, t, a), Target(s, t, a))
  {
    var s', pc, pc' := Post(s, t, a), s.threads[t], Target(s, t, a);
    TargetInHand(s, t, a);
    if InHand(pc').Some? {
      var c := InHand(pc').value.client;
      LogChanges(s, t, a, c);
      StepDecides(s, t, a);
      assert LogOrderOk(s, c) && HandOrderOk(s, pc);
      if ToWrite(pc').Some? {
        if a.Take? {
          TakenIsFresh(s, t, a);
        } else {
          SpentStays(s, s', t, a, NewFate(s, t, a), ToWrite(pc').value);
        }
      }
    }
  }

  lemma OrderKept(s: State, t: Tid, a: Step)
    requires Servers(s) && Requests(s) && Hands(s) && Order(s) && Enabled(s, t, a)
    ensures Order(Post(s, t, a))
  {
    var s' := Post(s, t, a);
    ThreadsStep(s, t, a);
    StepDecides(s, t, a);
    forall c
      ensures LogOf(s', c) == LogOf(s, c) || LogOf(s', c) == [] || Writes(s, s', t, c)
      ensures LogOrderOk(s', c)
    {
      LogChanges(s, t, a, c);
      LogOrderKept(s, s', t, a, NewFate(s, t, a), c);
    }
    TargetOrderKept(s, t, a);
    forall u | u in s'.threads && u != t
      ensures HandOrderOk(s', s'.threads[u])
    {
      OtherOrderKept(s, s', t, a, NewFate(s, t, a), u);
    }
  }
}
