/**
 The order of src/task.c and what it makes of the task queue.

 include/types.h promises a positive result when the first task has the higher
 priority; the code returns -1 then.  Both signs are total preorders, so the queue
 theorems apply to both; this module says which task each of them serves.
 */
module TaskOrder {
  import opened Types
  import opened Heap
  import opened QueueModel

  /** `task_compare_priority`, as written. */
  function TaskCompare(a: Task, b: Task): int {
    if Rank(a.priority) > Rank(b.priority) then -1
    else if Rank(a.priority) < Rank(b.priority) then 1
    else if a.enqueueTime.sec < b.enqueueTime.sec then -1
    else if a.enqueueTime.sec > b.enqueueTime.sec then 1
    else if a.enqueueTime.nsec < b.enqueueTime.nsec then -1
    else if a.enqueueTime.nsec > b.enqueueTime.nsec then 1
    else 0
  }

  /** The comparator with the sign that the header documents. */
  function DocumentedCompare(a: Task, b: Task): int {
    -TaskCompare(a, b)
  }

  predicate Earlier(a: Timespec, b: Timespec) {
    a.sec < b.sec || (a.sec == b.sec && a.nsec < b.nsec)
  }

  /** Stamps are ordered as the nanoseconds they denote. */
  lemma EarlierIsLessTime(a: Timespec, b: Timespec)
    requires 0 <= a.nsec < 1_000_000_000 && 0 <= b.nsec < 1_000_000_000
    ensures Earlier(a, b) <==> a.sec * 1_000_000_000 + a.nsec < b.sec * 1_000_000_000 + b.nsec
  {
  }

  /** HIGH comes before NORMAL, and NORMAL before LOW. */
  predicate Above(p: TaskPriority, q: TaskPriority) {
    (p == High && q == Normal) || (p == High && q == Low) || (p == Normal && q == Low)
  }

  /** `a` is to be served before `b`: higher priority, or the same and enqueued earlier. */
  predicate MoreUrgent(a: Task, b: Task) {
    || Above(a.priority, b.priority)
    || (a.priority == b.priority && Earlier(a.enqueueTime, b.enqueueTime))
  }

  /** Neither is to be served before the other. */
  predicate SameUrgency(a: Task, b: Task) {
    a.priority == b.priority && a.enqueueTime == b.enqueueTime
  }

  lemma SignOfCompare(a: Task, b: Task)
    ensures TaskCompare(a, b) < 0 <==> MoreUrgent(a, b)
    ensures TaskCompare(a, b) > 0 <==> MoreUrgent(b, a)
    ensures TaskCompare(a, b) == 0 <==> SameUrgency(a, b)
  {
  }

  lemma ComparatorsArePreorders()
    ensures TotalPreorder(TaskCompare)
    ensures TotalPreorder(DocumentedCompare)
  {
  }

  /** The task that the next pop of a queue hands out after any run from the empty queue. */
  function NextServed(cmp: (Task, Task) -> int, ops: seq<Op<Task>>): Option<Task> {
    Output(Run(Repeat(cmp, |ops|), QueueModel.Init(), ops), Pop)
  }

  function Queued(cmp: (Task, Task) -> int, ops: seq<Op<Task>>): seq<Task> {
    Run(Repeat(cmp, |ops|), QueueModel.Init(), ops).items
  }

  /** With the documented sign: the highest priority first, and the earliest of those. */
  lemma DocumentedServesMostUrgent(ops: seq<Op<Task>>)
    ensures NextServed(DocumentedCompare, ops) == None <==> Queued(DocumentedCompare, ops) == []
    ensures forall x, t :: NextServed(DocumentedCompare, ops) == Some(x) && t in Queued(DocumentedCompare, ops) ==> !MoreUrgent(t, x)
  {
    ComparatorsArePreorders();
    RunRefinesBag(DocumentedCompare, QueueModel.Init(), ops);
    var s := Queued(DocumentedCompare, ops);
    if s != [] {
      RootIsMaximumOfBag(DocumentedCompare, s);
      forall t | t in s
        ensures !MoreUrgent(t, s[0])
      {
        assert t in multiset(s);
        assert DocumentedCompare(s[0], t) >= 0;
        SignOfCompare(s[0], t);
      }
    }
  }

  /** As written: the lowest priority first, and the latest of those. */
  lemma LiteralServesLeastUrgent(ops: seq<Op<Task>>)
    ensures NextServed(TaskCompare, ops) == None <==> Queued(TaskCompare, ops) == []
    ensures forall x, t :: NextServed(TaskCompare, ops) == Some(x) && t in Queued(TaskCompare, ops) ==> !MoreUrgent(x, t)
  {
    ComparatorsArePreorders();
    RunRefinesBag(TaskCompare, QueueModel.Init(), ops);
    var s := Queued(TaskCompare, ops);
    if s != [] {
      RootIsMaximumOfBag(TaskCompare, s);
      forall t | t in s
        ensures !MoreUrgent(s[0], t)
      {
        assert t in multiset(s);
        SignOfCompare(s[0], t);
      }
    }
  }

  /**
   When the code as written does serve a most urgent task: exactly when the queued tasks
   do not differ in urgency at all.
   */
  lemma LiteralServesMostUrgentIff(ops: seq<Op<Task>>, x: Task)
    requires NextServed(TaskCompare, ops) == Some(x)
    ensures (forall t :: t in Queued(TaskCompare, ops) ==> !MoreUrgent(t, x))
       <==> (forall t, u :: t in Queued(TaskCompare, ops) && u in Queued(TaskCompare, ops) ==> SameUrgency(t, u))
  {
    LiteralServesLeastUrgent(ops);
    var s := Queued(TaskCompare, ops);
    assert x in s;
    if forall t :: t in s ==> !MoreUrgent(t, x) {
      forall t | t in s
        ensures SameUrgency(t, x)
      {
        assert !MoreUrgent(t, x) && !MoreUrgent(x, t);
        SignOfCompare(t, x);
      }
    }
  }

  /** A queue holding a HIGH and a LOW task, on which the code as written serves LOW. */
  lemma LiteralServesLowBeforeHigh() returns (ops: seq<Op<Task>>, high: Task, low: Task)
    ensures Rank(high.priority) > Rank(low.priority)
    ensures ops == [Push(high), Push(low)]
    ensures NextServed(TaskCompare, ops) == Some(low)
    ensures NextServed(DocumentedCompare, ops) == Some(high)
  {
    var t := EmptyTask(1, Timespec(0, 0));
    high, low := t.(priority := High), t.(priority := Low);
    ops := [Push(high), Push(low)];
    assert ops[1..] == [Push(low)] && ops[1..][1..] == [];
    var q0 := QueueModel.Init<Task>();
    forall cmp: (Task, Task) -> int | cmp == TaskCompare || cmp == DocumentedCompare
      ensures Run(Repeat(cmp, 2), q0, ops) == AfterPush(cmp, AfterPush(cmp, q0, high), low)
      ensures AfterPush(cmp, q0, high).items == [high]
    {
      assert Run(Repeat(cmp, 2), q0, ops) == Run(Repeat(cmp, 1), Exec(cmp, q0, ops[0]), ops[1..]);
      assert Insert(cmp, [], high) == [high];
    }
    var s := [high, low];
    assert [high] + [low] == s;
    assert Parent(1) == 0;
    assert SiftUp(TaskCompare, s, 1) == SiftUp(TaskCompare, Swap(s, 0, 1), 0) == Swap(s, 0, 1);
    assert SiftUp(DocumentedCompare, s, 1) == s;
  }

  /** Emptying the queue as written hands the tasks out from least to most urgent. */
  lemma LiteralDrainIsReversed(ops: seq<Op<Task>>)
    ensures var d := Drain(TaskCompare, Queued(TaskCompare, ops));
            && multiset(d) == multiset(Queued(TaskCompare, ops))
            && forall i, j :: 0 <= i < j < |d| ==> !MoreUrgent(d[i], d[j])
  {
    ComparatorsArePreorders();
    DrainAfterAnyRun(TaskCompare, ops);
    var d := Drain(TaskCompare, Queued(TaskCompare, ops));
    forall i, j | 0 <= i < j < |d|
      ensures !MoreUrgent(d[i], d[j])
    {
      SignOfCompare(d[i], d[j]);
    }
  }

  /**
   A queue with a HIGH, a NORMAL and a LOW task, pushed in any order and at any time: as
   written it hands out LOW, NORMAL, HIGH; with the documented sign HIGH, NORMAL, LOW.
   */
  lemma ThreePriorities(ops: seq<Op<Task>>, high: Task, normal: Task, low: Task)
    requires high.priority == High && normal.priority == Normal && low.priority == Low
    ensures multiset(Queued(TaskCompare, ops)) == multiset{high, normal, low} ==>
              Drain(TaskCompare, Queued(TaskCompare, ops)) == [low, normal, high]
    ensures multiset(Queued(DocumentedCompare, ops)) == multiset{high, normal, low} ==>
              Drain(DocumentedCompare, Queued(DocumentedCompare, ops)) == [high, normal, low]
  {
    ComparatorsArePreorders();
    if multiset(Queued(TaskCompare, ops)) == multiset{high, normal, low} {
      DrainOfThree(TaskCompare, ops, low, normal, high);
    }
    if multiset(Queued(DocumentedCompare, ops)) == multiset{high, normal, low} {
      DrainOfThree(DocumentedCompare, ops, high, normal, low);
    }
  }

  lemma DrainOfThree(cmp: (Task, Task) -> int, ops: seq<Op<Task>>, x: Task, y: Task, z: Task)
    requires TotalPreorder(cmp) && multiset(Queued(cmp, ops)) == multiset{x, y, z}
    requires cmp(y, x) < 0 && cmp(z, x) < 0 && cmp(z, y) < 0
    ensures Drain(cmp, Queued(cmp, ops)) == [x, y, z]
  {
    DrainAfterAnyRun(cmp, ops);
    SortedThree(cmp, Drain(cmp, Queued(cmp, ops)), x, y, z);
  }

  lemma SortedThree(cmp: (Task, Task) -> int, d: seq<Task>, x: Task, y: Task, z: Task)
    requires multiset(d) == multiset{x, y, z} && NonIncreasing(cmp, d)
    requires cmp(y, x) < 0 && cmp(z, x) < 0 && cmp(z, y) < 0
    ensures d == [x, y, z]
  {
    assert |multiset(d)| == 3;
    assert d == [d[0], d[1], d[2]];
    assert x in multiset(d) && y in multiset(d) && z in multiset(d);
    assert d[0] in multiset(d) && d[1] in multiset(d) && d[2] in multiset(d);
    assert cmp(d[0], d[1]) >= 0 && cmp(d[0], d[2]) >= 0 && cmp(d[1], d[2]) >= 0;
  }
}
