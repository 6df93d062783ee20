/** Every request that was ever read is accounted for, under a number of its own. */
module ProtocolAccounts {
  import opened Types
  import opened Protocol
  import opened ProtocolInvariants
  import opened ProtocolRequests

  ghost predicate InPush(s: State, r: Request) {
    exists t :: t in s.threads && s.threads[t].Pushing? && s.threads[t].r == r
  }

  /** The request was submitted, or its client thread is about to push it. */
  ghost predicate Known(s: State, r: Request) {
    r in s.fate || InPush(s, r)
  }

  ghost predicate NumberOk(s: State, id: nat) {
    exists r: Request :: r.id == id && Known(s, r)
  }

  ghost predicate Accounts(s: State) {
    && (forall id: nat :: id < s.nextRequest ==> NumberOk(s, id))
    && (forall r :: Known(s, r) ==> r.id < s.nextRequest)
    && (forall r, x :: Known(s, r) && Known(s, x) && r.id == x.id ==> r == x)
  }

  /** The request that a step reads. */
  ghost function NewRequest(s: State, t: Tid, a: Step): Option<Request>
    requires Enabled(s, t, a)
  {
    if a.Read? && Pushable(a.kind) then Some(Request(s.nextRequest, s.threads[t].c, a.kind)) else None
  }

  lemma TargetPushing(s: State, t: Tid, a: Step)
    requires Enabled(s, t, a)
    ensures Target(s, t, a).Pushing? ==>
              NewRequest(s, t, a) == Some(Target(s, t, a).r)
              || (s.threads[t].Pushing? && Target(s, t, a).r == s.threads[t].r)
    ensures NewRequest(s, t, a).Some? ==> Target(s, t, a) == Pushing(NewRequest(s, t, a).value, false)
    ensures s.threads[t].Pushing? && !a.Submit? ==> Target(s, t, a).Pushing? && Target(s, t, a).r == s.threads[t].r
    ensures a.Submit? ==> s.threads[t].Pushing?
  {
    if ClientStep(a) {
      TargetRoleOfClient(s, t, a);
    }
  }

  /** What a step does to the requests that are known. */
  ghost predicate PushMove(s: State, s': State, t: Tid, pc: Pc, added: Option<Request>) {
    && Moved(s.threads, s'.threads, t, pc)
    && (pc.Pushing? ==> added == Some(pc.r) || (s.threads[t].Pushing? && pc.r == s.threads[t].r))
    && (added.Some? ==> pc == Pushing(added.value, false) && added.value.id == s.nextRequest)
    && (s.threads[t].Pushing? ==> s.threads[t].r in s'.fate || (pc.Pushing? && pc.r == s.threads[t].r))
    && (forall r :: r in s.fate ==> r in s'.fate)
    && (forall r :: r in s'.fate ==> r in s.fate || (s.threads[t].Pushing? && s.threads[t].r == r))
    && s'.nextRequest == s.nextRequest + One(added.Some?)
  }

  lemma SubmitIsKnown(s: State, t: Tid, a: Step)
    requires Enabled(s, t, a) && a.Submit?
    ensures s.threads[t].Pushing? && s.threads[t].r in Post(s, t, a).fate
  {
  }

  lemma NextNumber(s: State, t: Tid, a: Step)
    requires Enabled(s, t, a)
    ensures Post(s, t, a).nextRequest == s.nextRequest + One(NewRequest(s, t, a).Some?)
    ensures NewRequest(s, t, a).Some? ==> NewRequest(s, t, a).value.id == s.nextRequest
  {
  }

  lemma StepIsPushMove(s: State, t: Tid, a: Step)
    requires Requests(s) && Hands(s) && Enabled(s, t, a)
    ensures PushMove(s, Post(s, t, a), t, Target(s, t, a), NewRequest(s, t, a))
  {
    ThreadsStep(s, t, a);
    StepDecides(s, t, a);
    TargetPushing(s, t, a);
    NextNumber(s, t, a);
    if a.Submit? {
      SubmitIsKnown(s, t, a);
    }
    FatesOf(s, Post(s, t, a), t, a, NewFate(s, t, a));
  }

  lemma FatesOf(s: State, s': State, t: Tid, a: Step, change: Option<(Request, Fate)>)
    requires Decides(s, s', t, a, change)
    ensures forall r :: r in s.fate ==> r in s'.fate
    ensures forall r :: r in s'.fate ==> r in s.fate || (s.threads[t].Pushing? && s.threads[t].r == r)
  {
  }

  lemma KnownStays(s: State, s': State, t: Tid, pc: Pc, added: Option<Request>, r: Request)
    requires PushMove(s, s', t, pc, added) && Known(s, r)
    ensures Known(s', r)
  {
    if r !in s.fate {
      var u :| u in s.threads && s.threads[u].Pushing? && s.threads[u].r == r;
      if r !in s'.fate {
        assert s'.threads[u].Pushing? && s'.threads[u].r == r;
      }
    }
  }

  lemma KnownBefore(s: State, s': State, t: Tid, pc: Pc, added: Option<Request>, r: Request)
    requires PushMove(s, s', t, pc, added) && Known(s', r)
    ensures Known(s, r) || added == Some(r)
  {
    if r in s'.fate {
      if r !in s.fate {
        assert s.threads[t].Pushing? && s.threads[t].r == r;
      }
    } else {
      var u :| u in s'.threads && s'.threads[u].Pushing? && s'.threads[u].r == r;
      if u != t {
        assert s.threads[u].Pushing? && s.threads[u].r == r;
      } else if added != Some(r) {
        assert s.threads[t].Pushing? && s.threads[t].r == r;
      }
    }
  }

  lemma NumbersKept(s: State, s': State, t: Tid, pc: Pc, added: Option<Request>, id: nat)
    requires PushMove(s, s', t, pc, added) && id < s'.nextRequest
    requires id < s.nextRequest ==> NumberOk(s, id)
    ensures NumberOk(s', id)
  {
    if id < s.nextRequest {
      var r: Request :| r.id == id && Known(s, r);
      KnownStays(s, s', t, pc, added, r);
    } else {
      assert s'.threads[t].Pushing? && s'.threads[t].r == added.value;
      assert Known(s', added.value);
    }
  }

  lemma AccountsKept(s: State, t: Tid, a: Step)
    requires Requests(s) && Hands(s) && Accounts(s) && Enabled(s, t, a)
    ensures Accounts(Post(s, t, a))
  {
    StepIsPushMove(s, t, a);
    AccountsKeptBy(s, Post(s, t, a), t, Target(s, t, a), NewRequest(s, t, a));
  }

  lemma AccountsKeptBy(s: State, s': State, t: Tid, pc: Pc, added: Option<Request>)
    requires PushMove(s, s', t, pc, added) && Accounts(s)
    ensures Accounts(s')
  {
    forall r | Known(s', r)
      ensures Known(s, r) || added == Some(r)
    {
      KnownBefore(s, s', t, pc, added, r);
    }
    forall id: nat | id < s'.nextRequest
      ensures NumberOk(s', id)
    {
      NumbersKept(s, s', t, pc, added, id);
    }
  }
}
