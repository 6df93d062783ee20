/**
 The history variables of the protocol: no step depends on them, so that a run can be
 followed without them.
 */
module ProtocolHistory {
  import opened Types
  import opened Protocol

  /** A state without its history; the log is kept. */
  ghost function Core(s: State): State {
    s.(conn := map[], fate := map[], served := multiset{}, popped := multiset{}, lost := map[])
  }

  lemma SameEnabled(s: State, t: Tid, a: Step)
    ensures Enabled(Core(s), t, a) <==> Enabled(s, t, a)
  {
  }

  lemma SameTarget(s: State, t: Tid, a: Step)
    requires Enabled(s, t, a) && Enabled(Core(s), t, a)
    ensures Target(Core(s), t, a) == Target(s, t, a)
  {
  }

  lemma SameThreads(s: State, t: Tid, a: Step)
    requires Enabled(s, t, a) && Enabled(Core(s), t, a)
    ensures ThreadsAfter(Core(s), t, a) == ThreadsAfter(s, t, a)
  {
    SameTarget(s, t, a);
    assert WokenThreads(Core(s), t, a) == WokenThreads(s, t, a);
  }

  lemma SameOwner(s: State, t: Tid, a: Step)
    requires Enabled(s, t, a) && Enabled(Core(s), t, a)
    ensures OwnerAfter(Core(s), t, a) == OwnerAfter(s, t, a)
  {
    SameTarget(s, t, a);
  }

  lemma SameQueues(s: State, t: Tid, a: Step)
    requires Enabled(s, t, a) && Enabled(Core(s), t, a)
    ensures TasksAfter(Core(s), t, a) == TasksAfter(s, t, a)
    ensures ClientsAfter(Core(s), t, a) == ClientsAfter(s, t, a)
    ensures TableAfter(Core(s), t, a) == TableAfter(s, t, a)
  {
  }

  lemma SameEntries(s: State, t: Tid, a: Step)
    requires Enabled(s, t, a) && Enabled(Core(s), t, a)
    ensures EntriesAfter(Core(s), t, a) == EntriesAfter(s, t, a)
  {
  }

  lemma SameLog(s: State, t: Tid, a: Step)
    requires Enabled(s, t, a) && Enabled(Core(s), t, a)
    ensures LogAfter(Core(s), t, a) == LogAfter(s, t, a)
  {
  }

  /** No step depends on the history, or writes anything else because of it. */
  lemma HistoryFree(s: State, t: Tid, a: Step)
    ensures Enabled(Core(s), t, a) <==> Enabled(s, t, a)
    ensures Enabled(s, t, a) ==> Core(Post(Core(s), t, a)) == Core(Post(s, t, a))
  {
    SameEnabled(s, t, a);
    if Enabled(s, t, a) {
      SameThreads(s, t, a);
      SameOwner(s, t, a);
      SameQueues(s, t, a);
      SameEntries(s, t, a);
      SameLog(s, t, a);
    }
  }

  /** Some reachable state looks like this. */
  ghost predicate Reached(c: State) {
    exists s :: Reachable(s) && Core(s) == c
  }

  lemma ReachableBy(s: State, s': State)
    requires Reachable(s) && Next(s, s')
    ensures Reachable(s')
  {
    var run :| IsRun(run) && run[|run| - 1] == s;
    var longer := run + [s'];
    assert IsRun(longer);
  }

  lemma Does(s: State, t: Tid, a: Step)
    requires Reachable(s) && Enabled(s, t, a)
    ensures Reachable(Post(s, t, a))
  {
    assert Next(s, Post(s, t, a));
    ReachableBy(s, Post(s, t, a));
  }

  /** Step `a` of thread `t` leads from `c` to `c'`, history aside. */
  ghost predicate Becomes(c: State, t: Tid, a: Step, c': State) {
    Enabled(c, t, a) && Core(Post(c, t, a)) == c'
  }

  /** Steps do not lead out of the set `reach`. */
  ghost predicate Closed(reach: iset<State>) {
    forall c, t, a, c' :: c in reach && Becomes(c, t, a, c') ==> c' in reach
  }

  lemma ReachedIsClosed()
    ensures Closed(iset c | Reached(c))
  {
    forall c, t, a, c' | Reached(c) && Becomes(c, t, a, c')
      ensures Reached(c')
    {
      var s :| Reachable(s) && Core(s) == c;
      HistoryFree(s, t, a);
      Does(s, t, a);
    }
  }

  /** `c` is in a closed set, and without history. */
  ghost predicate Within(reach: iset<State>, c: State) {
    Closed(reach) && c in reach && c == Core(c)
  }
}
