/**
 Until the first wait of a connection that ends without a response, every wait gets the
 response to its own request.
 */
module ProtocolMatching {
  import opened Types
  import opened Protocol
  import opened ProtocolInvariants
  import opened ProtocolRequests
  import opened ProtocolLedger
  import opened ProtocolOrder

  predicate AllAnswered(log: seq<Wait>) {
    forall i :: 0 <= i < |log| ==> log[i].answer.Answered?
  }

  predicate AllOwn(log: seq<Wait>) {
    forall i :: 0 <= i < |log| ==> log[i].answer == Answered(log[i].request)
  }

  /** Every initial part of the log without a lost wait has its own answers. */
  ghost predicate MatchedOk(s: State, c: Cid) {
    forall n :: 0 <= n <= |LogOf(s, c)| && AllAnswered(LogOf(s, c)[..n]) ==> AllOwn(LogOf(s, c)[..n])
  }

  /** The thread has a lost wait of `c` to record. */
  predicate Records(pc: Pc, c: Cid) {
    pc.Answering? && pc.r.client == c && !pc.answer.Answered?
  }

  /** A lost wait is in the log, or about to be. */
  ghost predicate LossOk(s: State, c: Cid) {
    Lost(s, c) > 0 ==> !AllAnswered(LogOf(s, c)) || exists t :: t in s.threads && Records(s.threads[t], c)
  }

  ghost predicate Matching(s: State) {
    forall c :: MatchedOk(s, c) && LossOk(s, c)
  }

  /** Logs only grow. */
  lemma LogGrows(s: State, t: Tid, a: Step, c: Cid)
    requires ConnectionOk(s, c) && s.nextClient >= 1 && Enabled(s, t, a)
    ensures var s' := Post(s, t, a);
            LogOf(s', c) == LogOf(s, c) || (a.Reply? && Writes(s, s', t, c))
  {
    LogStep(s, t, a, c);
    assert Post(s, t, a).log == LogAfter(s, t, a);
  }

  /** A thread with a lost wait to record keeps it until it has written it to the log. */
  lemma RecorderStays(s: State, t: Tid, a: Step, u: Tid, c: Cid)
    requires Enabled(s, t, a) && u in s.threads && Records(s.threads[u], c)
    requires Moved(s.threads, Post(s, t, a).threads, t, Target(s, t, a))
    ensures (u == t && a.Reply?) || Records(Post(s, t, a).threads[u], c)
  {
    if u == t {
      RecorderSteps(s, t, a, c);
    }
  }

  lemma RecorderSteps(s: State, t: Tid, a: Step, c: Cid)
    requires Enabled(s, t, a) && Records(s.threads[t], c)
    ensures a.Reply? || Records(Target(s, t, a), c)
  {
  }

  lemma LosingRecords(s: State, t: Tid, a: Step)
    requires Enabled(s, t, a) && Loses(s, t, a)
    ensures Records(Target(s, t, a), s.threads[t].r.client)
  {
  }

  lemma LossKept(s: State, t: Tid, a: Step, c: Cid)
    requires ConnectionOk(s, c) && s.nextClient >= 1 && LossOk(s, c) && Enabled(s, t, a)
    ensures LossOk(Post(s, t, a), c)
  {
    var s' := Post(s, t, a);
    ThreadsStep(s, t, a);
    LostStep(s, t, a, c);
    LogGrows(s, t, a, c);
    if Loses(s, t, a) && s.threads[t].r.client == c {
      LosingRecords(s, t, a);
      assert Records(s'.threads[t], c);
    } else if Lost(s, c) > 0 {
      if !AllAnswered(LogOf(s, c)) {
        GrownLog(LogOf(s, c), LogOf(s', c));
      } else {
        var u :| u in s.threads && Records(s.threads[u], c);
        RecorderStays(s, t, a, u, c);
        if u == t && a.Reply? {
          assert !LogOf(s', c)[|LogOf(s, c)|].answer.Answered?;
        }
      }
    }
  }

  lemma GrownLog(log: seq<Wait>, log': seq<Wait>)
    requires !AllAnswered(log) && log <= log'
    ensures !AllAnswered(log')
  {
    var i :| 0 <= i < |log| && !log[i].answer.Answered?;
    assert log'[i] == log[i];
  }

  lemma MatchedKept(s: State, t: Tid, a: Step, c: Cid)
    requires ConnectionOk(s, c) && s.nextClient >= 1 && Servers(s) && MatchedOk(s, c) && LossOk(s, c)
    requires AnswerOkIfAny(s, t) && Enabled(s, t, a)
    ensures MatchedOk(Post(s, t, a), c)
  {
    var s' := Post(s, t, a);
    var log, log' := LogOf(s, c), LogOf(s', c);
    LogGrows(s, t, a, c);
    if log' != log {
      forall n | 0 <= n <= |log'| && AllAnswered(log'[..n])
        ensures AllOwn(log'[..n])
      {
        if n <= |log| {
          assert log'[..n] == log[..n];
        } else {
          assert log'[..n] == log' && log'[..|log|] == log[..|log|] == log;
          assert log'[..n][|log|].answer.Answered?;
          assert forall i :: 0 <= i < |log| ==> log[i] == log'[..n][i];
          LastIsOwn(s, t, c);
        }
      }
    }
  }

  /** If no wait before it was lost, the answer that a thread is about to record is the right one. */
  lemma LastIsOwn(s: State, t: Tid, c: Cid)
    requires Servers(s) && LossOk(s, c) && t in s.threads && AnswerOk(s, t)
    requires s.threads[t].Answering? && s.threads[t].r.client == c && s.threads[t].answer.Answered?
    requires AllAnswered(LogOf(s, c))
    ensures s.threads[t].answer == Answered(s.threads[t].r)
  {
    if Lost(s, c) > 0 {
      var u :| u in s.threads && Records(s.threads[u], c);
      OneServer(s, t, u);
    }
  }

  lemma MatchingKept(s: State, t: Tid, a: Step)
    requires Connections(s) && Servers(s) && Answers(s) && Matching(s) && Enabled(s, t, a)
    ensures Matching(Post(s, t, a))
  {
    forall c
      ensures MatchedOk(Post(s, t, a), c) && LossOk(Post(s, t, a), c)
    {
      assert ConnectionOk(s, c) && MatchedOk(s, c) && LossOk(s, c);
      MatchedKept(s, t, a, c);
      LossKept(s, t, a, c);
    }
  }
}
