/**
 The closable priority queue of src/queue.c: its states and operations as values, and
 what whole runs of operations keep.
 Waiting on `not_empty` is modelled in module Protocol; here a pop that would wait
 says so and changes nothing.
 */
module QueueModel {
  import opened Types
  import opened Heap

  datatype QueueState<T> = QueueState(items: seq<T>, capacity: nat, closed: bool)

  datatype PopResult<+T> = Popped(data: T) | Closed | WouldWait

  datatype Op<T> = Push(item: T) | Pop | Close

  function Init<T>(): QueueState<T> {
    QueueState([], 0, false)
  }

  function Grow(size: nat, capacity: nat): nat {
    if size < capacity then capacity else if capacity == 0 then 16 else capacity * 2
  }

  /** `queue_push`: rejected when closed, else grow if full, append and sift up. */
  function AfterPush<T>(cmp: (T, T) -> int, q: QueueState<T>, x: T): QueueState<T> {
    if q.closed then q
    else QueueState(Insert(cmp, q.items, x), Grow(|q.items|, q.capacity), false)
  }

  /** `queue_pop`: NULL only when empty and closed. */
  function PopOutcome<T>(q: QueueState<T>): PopResult<T> {
    if q.items != [] then Popped(q.items[0]) else if q.closed then Closed else WouldWait
  }

  function AfterPop<T>(cmp: (T, T) -> int, q: QueueState<T>): QueueState<T> {
    if q.items == [] then q else q.(items := RemoveRoot(cmp, q.items))
  }

  function Exec<T>(cmp: (T, T) -> int, q: QueueState<T>, op: Op<T>): QueueState<T> {
    match op
    case Push(x) => AfterPush(cmp, q, x)
    case Pop => AfterPop(cmp, q)
    case Close => q.(closed := true)
  }

  /** What an operation hands to its caller. */
  function Output<T>(q: QueueState<T>, op: Op<T>): Option<T> {
    if op.Pop? && q.items != [] then Some(q.items[0]) else None
  }

  type Comparator<!T> = (T, T) -> int

  /**
   A run of operations, the i-th with the comparator `cmps[i]`: on elements that are not
   tasks the comparator may answer differently from one call to the next.
   */
  function Run<T>(cmps: seq<Comparator<T>>, q: QueueState<T>, ops: seq<Op<T>>): QueueState<T>
    requires |cmps| == |ops|
    decreases |ops|
  {
    if ops == [] then q else Run(cmps[1..], Exec(cmps[0], q, ops[0]), ops[1..])
  }

  function Outputs<T>(cmps: seq<Comparator<T>>, q: QueueState<T>, ops: seq<Op<T>>): (r: seq<Option<T>>)
    requires |cmps| == |ops|
    ensures |r| == |ops|
    decreases |ops|
  {
    if ops == [] then [] else [Output(q, ops[0])] + Outputs(cmps[1..], Exec(cmps[0], q, ops[0]), ops[1..])
  }

  /** `x` for each of `n` operations. */
  function Repeat<X>(x: X, n: nat): (r: seq<X>)
    ensures |r| == n
    ensures n > 0 ==> r[0] == x && r[1..] == Repeat(x, n - 1)
  {
    if n == 0 then [] else [x] + Repeat(x, n - 1)
  }

  // ---------- The specification: a bag whose pop removes some maximum ----------

  /**
   The run of a bag `bag` under `ops` that hands out `outs` and ends in `end`.  The bag
   knows nothing of arrays, heaps or capacities.
   */
  ghost predicate BagRun<T>(cmp: (T, T) -> int, bag: multiset<T>, closed: bool,
                            ops: seq<Op<T>>, outs: seq<Option<T>>, end: multiset<T>)
    decreases |ops|
  {
    if ops == [] then outs == [] && bag == end
    else
      && |outs| > 0
      && match ops[0]
         case Close => outs[0] == None && BagRun(cmp, bag, true, ops[1..], outs[1..], end)
         case Push(x) =>
           && outs[0] == None
           && BagRun(cmp, if closed then bag else bag + multiset{x}, closed, ops[1..], outs[1..], end)
         case Pop =>
           match outs[0]
           case None => bag == multiset{} && BagRun(cmp, bag, closed, ops[1..], outs[1..], end)
           case Some(x) =>
             && IsMaximum(cmp, bag, x)
             && BagRun(cmp, bag - multiset{x}, closed, ops[1..], outs[1..], end)
  }

  lemma ExecKeepsHeap<T(!new)>(cmp: (T, T) -> int, q: QueueState<T>, op: Op<T>)
    requires TotalPreorder(cmp) && IsHeap(cmp, q.items)
    ensures IsHeap(cmp, Exec(cmp, q, op).items)
  {
    match op
    case Push(x) => InsertKeepsHeap(cmp, q.items, x);
    case Pop => if q.items != [] { RemoveRootKeepsHeap(cmp, q.items); }
    case Close =>
  }

  /** What one operation does to the bag of contents, for every comparator. */
  lemma ExecOnBag<T>(cmp: (T, T) -> int, q: QueueState<T>, op: Op<T>)
    ensures multiset(Exec(cmp, q, op).items) ==
            match op
            case Push(x) => if q.closed then multiset(q.items) else multiset(q.items) + multiset{x}
            case Pop => if q.items == [] then multiset{} else multiset(q.items) - multiset{q.items[0]}
            case Close => multiset(q.items)
  {
    match op
    case Push(x) => InsertAdds(cmp, q.items, x);
    case Pop => if q.items != [] { RemoveRootRemoves(cmp, q.items); }
    case Close =>
  }

  /** The first operation of the heap queue is one that the bag allows. */
  lemma BagRunCons<T(!new)>(cmp: (T, T) -> int, q: QueueState<T>, ops: seq<Op<T>>,
                            outs: seq<Option<T>>, end: multiset<T>)
    requires TotalPreorder(cmp) && IsHeap(cmp, q.items) && ops != []
    requires BagRun(cmp, multiset(Exec(cmp, q, ops[0]).items), Exec(cmp, q, ops[0]).closed, ops[1..], outs, end)
    ensures BagRun(cmp, multiset(q.items), q.closed, ops, [Output(q, ops[0])] + outs, end)
  {
    ExecOnBag(cmp, q, ops[0]);
    assert ([Output(q, ops[0])] + outs)[1..] == outs;
    if ops[0].Pop? && q.items != [] {
      RootIsMaximumOfBag(cmp, q.items);
    }
  }

  lemma RunStep<T>(cmp: (T, T) -> int, q: QueueState<T>, ops: seq<Op<T>>)
    requires ops != []
    ensures var n, q1 := |ops|, Exec(cmp, q, ops[0]);
            && Run(Repeat(cmp, n), q, ops) == Run(Repeat(cmp, n - 1), q1, ops[1..])
            && Outputs(Repeat(cmp, n), q, ops) == [Output(q, ops[0])] + Outputs(Repeat(cmp, n - 1), q1, ops[1..])
  {
  }

  /** Every run of the heap queue is a run of the bag, and keeps the heap order. */
  lemma {:induction false} RunRefinesBag<T(!new)>(cmp: (T, T) -> int, q: QueueState<T>, ops: seq<Op<T>>)
    requires TotalPreorder(cmp) && IsHeap(cmp, q.items)
    ensures IsHeap(cmp, Run(Repeat(cmp, |ops|), q, ops).items)
    ensures BagRun(cmp, multiset(q.items), q.closed, ops, Outputs(Repeat(cmp, |ops|), q, ops),
                   multiset(Run(Repeat(cmp, |ops|), q, ops).items))
    decreases |ops|
  {
    if ops != [] {
      var q1 := Exec(cmp, q, ops[0]);
      ExecKeepsHeap(cmp, q, ops[0]);
      RunRefinesBag(cmp, q1, ops[1..]);
      RunStep(cmp, q, ops);
      BagRunCons(cmp, q, ops, Outputs(Repeat(cmp, |ops| - 1), q1, ops[1..]),
                 multiset(Run(Repeat(cmp, |ops| - 1), q1, ops[1..]).items));
    }
  }

  function AcceptedBy<T>(closed: bool, op: Op<T>): multiset<T> {
    if op.Push? && !closed then multiset{op.item} else multiset{}
  }

  function HandedBy<T>(out: Option<T>): multiset<T> {
    if out.Some? then multiset{out.value} else multiset{}
  }

  /** The items whose push was accepted along a run. */
  function Accepted<T>(closed: bool, ops: seq<Op<T>>): multiset<T>
    decreases |ops|
  {
    if ops == [] then multiset{}
    else AcceptedBy(closed, ops[0]) + Accepted(closed || ops[0].Close?, ops[1..])
  }

  function Handed<T>(outs: seq<Option<T>>): multiset<T> {
    if outs == [] then multiset{} else HandedBy(outs[0]) + Handed(outs[1..])
  }

  lemma ExecConserves<T>(cmp: (T, T) -> int, q: QueueState<T>, op: Op<T>)
    ensures multiset(Exec(cmp, q, op).items) + HandedBy(Output(q, op))
         == multiset(q.items) + AcceptedBy(q.closed, op)
  {
    ExecOnBag(cmp, q, op);
    if op.Pop? && q.items != [] {
      assert q.items[0] in multiset(q.items);
    }
  }

  lemma AddBalances<T>(items: multiset<T>, handed: multiset<T>, accepted: multiset<T>, items1: multiset<T>,
                       handed1: multiset<T>, accepted1: multiset<T>, items2: multiset<T>)
    requires items1 + handed == items + accepted
    requires items2 + handed1 == items1 + accepted1
    ensures items2 + (handed + handed1) == items + (accepted + accepted1)
  {
    calc {
      items2 + (handed + handed1);
      (items2 + handed1) + handed;
      (items1 + accepted1) + handed;
      (items1 + handed) + accepted1;
      items + (accepted + accepted1);
    }
  }

  /** Conservation, for any comparators: nothing is lost, duplicated or invented. */
  lemma {:induction false} RunConserves<T>(cmps: seq<Comparator<T>>, q: QueueState<T>, ops: seq<Op<T>>)
    requires |cmps| == |ops|
    ensures multiset(Run(cmps, q, ops).items) + Handed(Outputs(cmps, q, ops))
         == multiset(q.items) + Accepted(q.closed, ops)
    decreases |ops|
  {
    if ops != [] {
      var q1 := Exec(cmps[0], q, ops[0]);
      ExecConserves(cmps[0], q, ops[0]);
      RunConserves(cmps[1..], q1, ops[1..]);
      var outs := Outputs(cmps, q, ops);
      assert outs[1..] == Outputs(cmps[1..], q1, ops[1..]);
      AddBalances(multiset(q.items), HandedBy(outs[0]), AcceptedBy(q.closed, ops[0]), multiset(q1.items),
                  Handed(outs[1..]), Accepted(q1.closed, ops[1..]), multiset(Run(cmps[1..], q1, ops[1..]).items));
    }
  }

  /** Repeated pops of a queue built by any run hand out its contents in order. */
  lemma DrainAfterAnyRun<T(!new)>(cmp: (T, T) -> int, ops: seq<Op<T>>)
    requires TotalPreorder(cmp)
    ensures var s := Run(Repeat(cmp, |ops|), Init(), ops).items;
            NonIncreasing(cmp, Drain(cmp, s)) && multiset(Drain(cmp, s)) == multiset(s)
  {
    RunRefinesBag(cmp, Init(), ops);
    DrainSorts(cmp, Run(Repeat(cmp, |ops|), Init(), ops).items);
  }

  /** `Drain` is what `n` pops on a queue of `n` elements hand out; it is then empty. */
  lemma {:induction false} PopsDrain<T>(cmp: (T, T) -> int, q: QueueState<T>)
    ensures var n := |q.items|;
            && Outputs(Repeat(cmp, n), q, Repeat(Pop, n)) == Somes(Drain(cmp, q.items))
            && Run(Repeat(cmp, n), q, Repeat(Pop, n)).items == []
    decreases |q.items|
  {
    if q.items != [] {
      PopsDrain(cmp, AfterPop(cmp, q));
      RunStep(cmp, q, Repeat(Pop, |q.items|));
      DrainStep(cmp, q.items);
    }
  }

  function Somes<T>(s: seq<T>): (r: seq<Option<T>>)
    ensures |r| == |s| && forall i :: 0 <= i < |r| ==> r[i] == Some(s[i])
  {
    if s == [] then [] else [Some(s[0])] + Somes(s[1..])
  }

  lemma DrainStep<T>(cmp: (T, T) -> int, s: seq<T>)
    requires s != []
    ensures Somes(Drain(cmp, s)) == [Some(s[0])] + Somes(Drain(cmp, RemoveRoot(cmp, s)))
  {
    var rest := Drain(cmp, RemoveRoot(cmp, s));
    assert ([s[0]] + rest)[1..] == rest;
  }

  /** Closed and empty is stable, and only then does a pop return NULL. */
  lemma {:induction false} ClosedAndEmptyIsStable<T>(cmps: seq<Comparator<T>>, q: QueueState<T>, ops: seq<Op<T>>)
    requires |cmps| == |ops| && PopOutcome(q) == Closed
    ensures PopOutcome(Run(cmps, q, ops)) == Closed
    ensures forall i :: 0 <= i < |ops| ==> Outputs(cmps, q, ops)[i] == None
    decreases |ops|
  {
    if ops != [] {
      var q1 := Exec(cmps[0], q, ops[0]);
      ClosedAndEmptyIsStable(cmps[1..], q1, ops[1..]);
      var outs := Outputs(cmps, q, ops);
      assert outs[1..] == Outputs(cmps[1..], q1, ops[1..]);
      forall i | 0 <= i < |ops|
        ensures outs[i] == None
      {
        if i > 0 {
          assert outs[i] == outs[1..][i - 1];
        }
      }
    }
  }

  // ---------- Growth ----------

  /** Elements that one operation moves to a larger array. */
  function Copied<T>(q: QueueState<T>, op: Op<T>): nat {
    if op.Push? && !q.closed && |q.items| >= q.capacity then |q.items| else 0
  }

  function TotalCopied<T>(cmps: seq<Comparator<T>>, q: QueueState<T>, ops: seq<Op<T>>): nat
    requires |cmps| == |ops|
    decreases |ops|
  {
    if ops == [] then 0 else Copied(q, ops[0]) + TotalCopied(cmps[1..], Exec(cmps[0], q, ops[0]), ops[1..])
  }

  function Max(a: nat, b: nat): nat {
    if a < b then b else a
  }

  /** The largest size reached along the run. */
  function Peak<T>(cmps: seq<Comparator<T>>, q: QueueState<T>, ops: seq<Op<T>>): nat
    requires |cmps| == |ops|
    decreases |ops|
  {
    if ops == [] then |q.items| else Max(|q.items|, Peak(cmps[1..], Exec(cmps[0], q, ops[0]), ops[1..]))
  }

  /** The capacities that growth can produce. */
  ghost predicate IsCapacity(c: nat) {
    c == 0 || exists k: nat :: c == 16 * Pow2(k)
  }

  /**
   A queue that has reached size `peak` and has moved `copied` elements in its life:
   each doubling moved exactly the old capacity, and was forced by a full array.
   */
  ghost predicate GrowthInv<T>(q: QueueState<T>, peak: nat, copied: nat) {
    && |q.items| <= q.capacity
    && |q.items| <= peak
    && IsCapacity(q.capacity)
    && q.capacity <= Max(16, 2 * peak)
    && (q.capacity > 0 ==> q.capacity >= 16)
    && copied == (if q.capacity == 0 then 0 else q.capacity - 16)
  }

  lemma DoubledCapacity(c: nat)
    requires IsCapacity(c)
    ensures IsCapacity(if c == 0 then 16 else c * 2)
  {
    if c == 0 {
      assert 16 == 16 * Pow2(0);
    } else {
      var k: nat :| c == 16 * Pow2(k);
      assert c * 2 == 16 * Pow2(k + 1);
    }
  }

  lemma ExecKeepsGrowthInv<T>(cmp: (T, T) -> int, q: QueueState<T>, op: Op<T>, peak: nat, copied: nat)
    requires GrowthInv(q, peak, copied)
    ensures GrowthInv(Exec(cmp, q, op), Max(peak, |Exec(cmp, q, op).items|), copied + Copied(q, op))
  {
    DoubledCapacity(q.capacity);
  }

  lemma {:induction false} GrowthAlongRun<T>(cmps: seq<Comparator<T>>, q: QueueState<T>, ops: seq<Op<T>>, peak: nat, copied: nat)
    requires |cmps| == |ops| && GrowthInv(q, peak, copied)
    ensures GrowthInv(Run(cmps, q, ops), Max(peak, Peak(cmps, q, ops)), copied + TotalCopied(cmps, q, ops))
    decreases |ops|
  {
    if ops != [] {
      var q1 := Exec(cmps[0], q, ops[0]);
      ExecKeepsGrowthInv(cmps[0], q, ops[0], peak, copied);
      GrowthAlongRun(cmps[1..], q1, ops[1..], Max(peak, |q1.items|), copied + Copied(q, ops[0]));
      PeakAtLeastSize(cmps[1..], q1, ops[1..]);
    }
  }

  lemma PeakAtLeastSize<T>(cmps: seq<Comparator<T>>, q: QueueState<T>, ops: seq<Op<T>>)
    requires |cmps| == |ops|
    ensures Peak(cmps, q, ops) >= |q.items|
  {
  }

  /** The peak is the size at some moment of the run, and no size along the run is larger. */
  lemma {:induction false} PeakIsReached<T>(cmps: seq<Comparator<T>>, q: QueueState<T>, ops: seq<Op<T>>, m: nat)
    returns (n: nat)
    requires |cmps| == |ops| && m <= |ops|
    ensures n <= |ops| && Peak(cmps, q, ops) == |Run(cmps[..n], q, ops[..n]).items|
    ensures |Run(cmps[..m], q, ops[..m]).items| <= Peak(cmps, q, ops)
    decreases |ops|
  {
    n := 0;
    if ops != [] {
      var q1 := Exec(cmps[0], q, ops[0]);
      n := PeakIsReached(cmps[1..], q1, ops[1..], if m > 0 then m - 1 else 0);
      RunFirst(cmps, q, ops, n + 1);
      if m > 0 {
        RunFirst(cmps, q, ops, m);
      }
      if Peak(cmps[1..], q1, ops[1..]) > |q.items| {
        n := n + 1;
      } else {
        n := 0;
      }
    }
  }

  lemma RunFirst<T>(cmps: seq<Comparator<T>>, q: QueueState<T>, ops: seq<Op<T>>, n: nat)
    requires |cmps| == |ops| && 0 < n <= |ops|
    ensures Run(cmps[..n], q, ops[..n]) == Run(cmps[1..][..n - 1], Exec(cmps[0], q, ops[0]), ops[1..][..n - 1])
  {
    assert cmps[..n][1..] == cmps[1..][..n - 1] && ops[..n][1..] == ops[1..][..n - 1];
  }

  lemma {:induction false} PeakAtMostPushes<T>(cmps: seq<Comparator<T>>, q: QueueState<T>, ops: seq<Op<T>>)
    requires |cmps| == |ops|
    ensures Peak(cmps, q, ops) <= |q.items| + |Accepted(q.closed, ops)|
    decreases |ops|
  {
    if ops != [] {
      PeakAtMostPushes(cmps[1..], Exec(cmps[0], q, ops[0]), ops[1..]);
    }
  }

  /**
   Any run from an empty queue: size and capacity stay in bounds, the capacity is 0 or
   16 doubled, and regrowth has moved at most two elements per accepted push.
   */
  lemma AmortisedGrowth<T>(cmps: seq<Comparator<T>>, ops: seq<Op<T>>)
    requires |cmps| == |ops|
    ensures var q := Run(cmps, Init(), ops);
            && |q.items| <= q.capacity
            && IsCapacity(q.capacity)
            && q.capacity <= Max(16, 2 * Peak(cmps, Init(), ops))
            && TotalCopied(cmps, Init(), ops) == (if q.capacity == 0 then 0 else q.capacity - 16)
            && TotalCopied(cmps, Init(), ops) <= 2 * |Accepted(false, ops)|
  {
    var q0: QueueState<T> := Init();
    GrowthAlongRun(cmps, q0, ops, 0, 0);
    PeakAtMostPushes(cmps, q0, ops);
  }
}
