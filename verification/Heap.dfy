/**
 The array heap of src/queue.c as functions on sequences.

 `cmp` is the comparator the sifting loops call.  What is proved for every `cmp`
 (termination, permutation, number of swaps) is kept apart from what needs the
 laws of a total preorder (heap order, the root is a maximum), because the same
 loops also run on elements for which the comparator has no meaning.
 */
module Heap {

  function Swap<T>(s: seq<T>, i: nat, j: nat): (r: seq<T>)
    requires i < |s| && j < |s|
    ensures |r| == |s|
  {
    s[i := s[j]][j := s[i]]
  }

  function Parent(i: nat): nat
    requires i > 0
  {
    (i - 1) / 2
  }

  /** `heapify_up`: move the element at `i` towards the root while its parent is smaller. */
  function SiftUp<T>(cmp: (T, T) -> int, s: seq<T>, i: nat): (r: seq<T>)
    requires i < |s|
    ensures |r| == |s|
    decreases i
  {
    if i == 0 || cmp(s[Parent(i)], s[i]) >= 0 then s
    else SiftUp(cmp, Swap(s, Parent(i), i), Parent(i))
  }

  /** The index `heapify_down` calls `largest`: `i` or one of its children. */
  function Largest<T>(cmp: (T, T) -> int, s: seq<T>, i: nat): (m: nat)
    requires i < |s|
    ensures m < |s| && (m == i || m == 2 * i + 1 || m == 2 * i + 2)
  {
    var l := 2 * i + 1;
    var r := 2 * i + 2;
    var m := if l < |s| && cmp(s[l], s[i]) > 0 then l else i;
    if r < |s| && cmp(s[r], s[m]) > 0 then r else m
  }

  /** `heapify_down`: move the element at `i` towards the leaves while a child is larger. */
  function SiftDown<T>(cmp: (T, T) -> int, s: seq<T>, i: nat): (r: seq<T>)
    requires i < |s|
    ensures |r| == |s|
    decreases |s| - i
  {
    var m := Largest(cmp, s, i);
    if m == i then s else SiftDown(cmp, Swap(s, i, m), m)
  }

  /** How many swaps each loop performs. */
  function UpSwaps<T>(cmp: (T, T) -> int, s: seq<T>, i: nat): nat
    requires i < |s|
    decreases i
  {
    if i == 0 || cmp(s[Parent(i)], s[i]) >= 0 then 0
    else 1 + UpSwaps(cmp, Swap(s, Parent(i), i), Parent(i))
  }

  function DownSwaps<T>(cmp: (T, T) -> int, s: seq<T>, i: nat): nat
    requires i < |s|
    decreases |s| - i
  {
    var m := Largest(cmp, s, i);
    if m == i then 0 else 1 + DownSwaps(cmp, Swap(s, i, m), m)
  }

  /** What is left after the root is taken: the last element replaces it and sinks. */
  function RemoveRoot<T>(cmp: (T, T) -> int, s: seq<T>): (r: seq<T>)
    requires |s| > 0
    ensures |r| == |s| - 1
  {
    var t := s[0 := s[|s| - 1]][..|s| - 1];
    if t == [] then t else SiftDown(cmp, t, 0)
  }

  function Insert<T>(cmp: (T, T) -> int, s: seq<T>, x: T): (r: seq<T>)
    ensures |r| == |s| + 1
  {
    SiftUp(cmp, s + [x], |s|)
  }

  /** The order in which repeated pops hand the elements out. */
  function Drain<T>(cmp: (T, T) -> int, s: seq<T>): (r: seq<T>)
    ensures |r| == |s|
    decreases |s|
  {
    if s == [] then [] else [s[0]] + Drain(cmp, RemoveRoot(cmp, s))
  }

  function Pow2(k: nat): nat {
    if k == 0 then 1 else 2 * Pow2(k - 1)
  }

  // ---------- Laws that hold for every comparator ----------

  lemma {:induction false} SiftUpPermutes<T>(cmp: (T, T) -> int, s: seq<T>, i: nat)
    requires i < |s|
    ensures multiset(SiftUp(cmp, s, i)) == multiset(s)
    decreases i
  {
    if i != 0 && cmp(s[Parent(i)], s[i]) < 0 {
      SwapPermutes(s, Parent(i), i);
      SiftUpPermutes(cmp, Swap(s, Parent(i), i), Parent(i));
    }
  }

  lemma {:induction false} SiftDownPermutes<T>(cmp: (T, T) -> int, s: seq<T>, i: nat)
    requires i < |s|
    ensures multiset(SiftDown(cmp, s, i)) == multiset(s)
    decreases |s| - i
  {
    var m := Largest(cmp, s, i);
    if m != i {
      SwapPermutes(s, i, m);
      SiftDownPermutes(cmp, Swap(s, i, m), m);
    }
  }

  lemma SwapPermutes<T>(s: seq<T>, i: nat, j: nat)
    requires i < |s| && j < |s|
    ensures multiset(Swap(s, i, j)) == multiset(s)
  {
  }

  /** At most floor(log2(i + 1)) swaps upward. */
  lemma {:induction false} UpSwapsBound<T>(cmp: (T, T) -> int, s: seq<T>, i: nat)
    requires i < |s|
    ensures Pow2(UpSwaps(cmp, s, i)) <= i + 1
    decreases i
  {
    if i != 0 && cmp(s[Parent(i)], s[i]) < 0 {
      UpSwapsBound(cmp, Swap(s, Parent(i), i), Parent(i));
    }
  }

  /** `a` doubled `k` times. */
  function Doubled(a: nat, k: nat): nat
    decreases k
  {
    if k == 0 then a else Doubled(2 * a, k - 1)
  }

  lemma {:induction false} DoubledMonotone(a: nat, b: nat, k: nat)
    requires a <= b
    ensures Doubled(a, k) <= Doubled(b, k)
    decreases k
  {
    if k > 0 {
      DoubledMonotone(2 * a, 2 * b, k - 1);
    }
  }

  lemma {:induction false} DoubledIsProduct(a: nat, k: nat)
    ensures Doubled(a, k) == a * Pow2(k)
    decreases k
  {
    if k > 0 {
      DoubledIsProduct(2 * a, k - 1);
      assert (2 * a) * Pow2(k - 1) == a * (2 * Pow2(k - 1));
    }
  }

  /** Each swap at least doubles `i + 1`, which never exceeds the size. */
  lemma {:induction false} DownSwapsBoundFrom<T>(cmp: (T, T) -> int, s: seq<T>, i: nat)
    requires i < |s|
    ensures Doubled(i + 1, DownSwaps(cmp, s, i)) <= |s|
    decreases |s| - i
  {
    var m := Largest(cmp, s, i);
    if m != i {
      var t := Swap(s, i, m);
      DownSwapsBoundFrom(cmp, t, m);
      DoubledMonotone(2 * (i + 1), m + 1, DownSwaps(cmp, t, m));
    }
  }

  /** At most floor(log2(|s| / (i + 1))) swaps downward from `i`: floor(log2(|s|)) from the root. */
  lemma DownSwapsBound<T>(cmp: (T, T) -> int, s: seq<T>, i: nat)
    requires i < |s|
    ensures (i + 1) * Pow2(DownSwaps(cmp, s, i)) <= |s|
  {
    DownSwapsBoundFrom(cmp, s, i);
    DoubledIsProduct(i + 1, DownSwaps(cmp, s, i));
  }

  /** Sifting up moves nothing exactly when the parent is not smaller; in particular not on a tie. */
  lemma UpStaysIff<T>(cmp: (T, T) -> int, s: seq<T>, i: nat)
    requires i < |s|
    ensures UpSwaps(cmp, s, i) == 0 <==> i == 0 || cmp(s[(i - 1) / 2], s[i]) >= 0
    ensures UpSwaps(cmp, s, i) == 0 ==> SiftUp(cmp, s, i) == s
  {
  }

  /** Sifting down moves nothing exactly when no child is larger; of two equal children the left one moves. */
  lemma DownStaysIff<T>(cmp: (T, T) -> int, s: seq<T>, i: nat)
    requires i < |s|
    ensures DownSwaps(cmp, s, i) == 0 <==>
            (2 * i + 1 < |s| ==> cmp(s[2 * i + 1], s[i]) <= 0) && (2 * i + 2 < |s| ==> cmp(s[2 * i + 2], s[i]) <= 0)
    ensures DownSwaps(cmp, s, i) == 0 ==> SiftDown(cmp, s, i) == s
    ensures 2 * i + 2 < |s| && cmp(s[2 * i + 1], s[i]) > 0 && cmp(s[2 * i + 2], s[2 * i + 1]) <= 0 ==>
              Largest(cmp, s, i) == 2 * i + 1
  {
  }

  lemma InsertAdds<T>(cmp: (T, T) -> int, s: seq<T>, x: T)
    ensures multiset(Insert(cmp, s, x)) == multiset(s) + multiset{x}
  {
    SiftUpPermutes(cmp, s + [x], |s|);
  }

  lemma RemoveRootRemoves<T>(cmp: (T, T) -> int, s: seq<T>)
    requires |s| > 0
    ensures multiset(RemoveRoot(cmp, s)) == multiset(s) - multiset{s[0]}
  {
    var n := |s| - 1;
    var t := s[0 := s[n]][..n];
    assert s == s[..n] + [s[n]];
    if n > 0 {
      SiftDownPermutes(cmp, t, 0);
      assert s[..n] == [s[0]] + s[1..n];
      assert t == [s[n]] + s[1..n];
    }
  }

  lemma {:induction false} DrainPermutes<T>(cmp: (T, T) -> int, s: seq<T>)
    ensures multiset(Drain(cmp, s)) == multiset(s)
    decreases |s|
  {
    if s != [] {
      RemoveRootRemoves(cmp, s);
      DrainPermutes(cmp, RemoveRoot(cmp, s));
    }
  }

  // ---------- Laws that need a total preorder ----------

  ghost predicate TotalPreorder<T(!new)>(cmp: (T, T) -> int) {
    && (forall a, b :: cmp(a, b) > 0 <==> cmp(b, a) < 0)
    && (forall a, b, c :: cmp(a, b) >= 0 && cmp(b, c) >= 0 ==> cmp(a, c) >= 0)
  }

  ghost predicate IsHeap<T>(cmp: (T, T) -> int, s: seq<T>) {
    forall i :: 0 < i < |s| ==> cmp(s[Parent(i)], s[i]) >= 0
  }

  /** A heap except possibly between `i` and its parent. */
  ghost predicate HeapBut<T>(cmp: (T, T) -> int, s: seq<T>, i: nat)
  {
    && (forall j :: 0 < j < |s| && j != i ==> cmp(s[Parent(j)], s[j]) >= 0)
    && (i > 0 ==> forall j :: i < j < |s| && Parent(j) == i ==> cmp(s[Parent(i)], s[j]) >= 0)
  }

  /** A heap except possibly between `i` and its children. */
  ghost predicate HeapBelowBut<T>(cmp: (T, T) -> int, s: seq<T>, i: nat)
  {
    && (forall j :: 0 < j < |s| && Parent(j) != i ==> cmp(s[Parent(j)], s[j]) >= 0)
    && (i > 0 ==> forall j :: i < j < |s| && Parent(j) == i ==> cmp(s[Parent(i)], s[j]) >= 0)
  }

  lemma {:induction false} SiftUpMakesHeap<T(!new)>(cmp: (T, T) -> int, s: seq<T>, i: nat)
    requires TotalPreorder(cmp)
    requires i < |s| && HeapBut(cmp, s, i)
    ensures IsHeap(cmp, SiftUp(cmp, s, i))
    decreases i
  {
    if i != 0 && cmp(s[Parent(i)], s[i]) < 0 {
      SiftUpStep(cmp, s, i);
      SiftUpMakesHeap(cmp, Swap(s, Parent(i), i), Parent(i));
    }
  }

  lemma SiftUpStep<T(!new)>(cmp: (T, T) -> int, s: seq<T>, i: nat)
    requires TotalPreorder(cmp)
    requires 0 < i < |s| && HeapBut(cmp, s, i) && cmp(s[Parent(i)], s[i]) < 0
    ensures HeapBut(cmp, Swap(s, Parent(i), i), Parent(i))
  {
    var p := Parent(i);
    var t := Swap(s, p, i);
    forall j | 0 < j < |t| && j != p
      ensures cmp(t[Parent(j)], t[j]) >= 0
    {
      assert cmp(s[i], s[p]) > 0;
      if Parent(j) == p && j != i {
        assert cmp(s[p], s[j]) >= 0;
      }
    }
    if p > 0 {
      forall j | p < j < |t| && Parent(j) == p
        ensures cmp(t[Parent(p)], t[j]) >= 0
      {
        assert cmp(s[Parent(p)], s[p]) >= 0;
        if j != i {
          assert cmp(s[p], s[j]) >= 0;
        }
      }
    }
  }

  lemma {:induction false} SiftDownMakesHeap<T(!new)>(cmp: (T, T) -> int, s: seq<T>, i: nat)
    requires TotalPreorder(cmp)
    requires i < |s| && HeapBelowBut(cmp, s, i)
    ensures IsHeap(cmp, SiftDown(cmp, s, i))
    decreases |s| - i
  {
    var m := Largest(cmp, s, i);
    LargestIsLargest(cmp, s, i);
    if m != i {
      SiftDownStep(cmp, s, i);
      SiftDownMakesHeap(cmp, Swap(s, i, m), m);
    }
  }

  lemma LargestIsLargest<T(!new)>(cmp: (T, T) -> int, s: seq<T>, i: nat)
    requires TotalPreorder(cmp) && i < |s|
    ensures cmp(s[Largest(cmp, s, i)], s[i]) >= 0
    ensures forall j :: i < j < |s| && Parent(j) == i ==> cmp(s[Largest(cmp, s, i)], s[j]) >= 0
  {
  }

  lemma SiftDownStep<T(!new)>(cmp: (T, T) -> int, s: seq<T>, i: nat)
    requires TotalPreorder(cmp)
    requires i < |s| && HeapBelowBut(cmp, s, i)
    requires Largest(cmp, s, i) != i
    ensures HeapBelowBut(cmp, Swap(s, i, Largest(cmp, s, i)), Largest(cmp, s, i))
  {
    var m := Largest(cmp, s, i);
    var t := Swap(s, i, m);
    LargestIsLargest(cmp, s, i);
    assert Parent(m) == i;
    forall j | 0 < j < |t| && Parent(j) != m
      ensures cmp(t[Parent(j)], t[j]) >= 0
    {
      if Parent(j) == i {
        assert cmp(s[m], s[j]) >= 0;
      } else if j == i {
        assert cmp(s[Parent(i)], s[m]) >= 0;
      } else {
        assert cmp(s[Parent(j)], s[j]) >= 0;
      }
    }
    forall j | m < j < |t| && Parent(j) == m
      ensures cmp(t[Parent(m)], t[j]) >= 0
    {
      assert cmp(s[Parent(j)], s[j]) >= 0;
    }
  }

  lemma InsertKeepsHeap<T(!new)>(cmp: (T, T) -> int, s: seq<T>, x: T)
    requires TotalPreorder(cmp) && IsHeap(cmp, s)
    ensures IsHeap(cmp, Insert(cmp, s, x))
  {
    var t := s + [x];
    forall j | 0 < j < |t| && j != |s|
      ensures cmp(t[Parent(j)], t[j]) >= 0
    {
      assert cmp(s[Parent(j)], s[j]) >= 0;
    }
    SiftUpMakesHeap(cmp, t, |s|);
  }

  lemma RemoveRootKeepsHeap<T(!new)>(cmp: (T, T) -> int, s: seq<T>)
    requires TotalPreorder(cmp) && IsHeap(cmp, s) && |s| > 0
    ensures IsHeap(cmp, RemoveRoot(cmp, s))
  {
    var t := s[0 := s[|s| - 1]][..|s| - 1];
    if t != [] {
      forall j | 0 < j < |t| && Parent(j) != 0
        ensures cmp(t[Parent(j)], t[j]) >= 0
      {
        assert cmp(s[Parent(j)], s[j]) >= 0;
      }
      SiftDownMakesHeap(cmp, t, 0);
    }
  }

  lemma {:induction false} RootIsMaximum<T(!new)>(cmp: (T, T) -> int, s: seq<T>, i: nat)
    requires TotalPreorder(cmp) && IsHeap(cmp, s) && i < |s|
    ensures cmp(s[0], s[i]) >= 0
    decreases i
  {
    if i == 0 {
      assert cmp(s[0], s[0]) >= 0;
    } else {
      RootIsMaximum(cmp, s, Parent(i));
    }
  }

  /** No element of the bag is `cmp`-greater than `x`. */
  ghost predicate IsMaximum<T>(cmp: (T, T) -> int, bag: multiset<T>, x: T) {
    x in bag && forall y :: y in bag ==> cmp(x, y) >= 0
  }

  lemma RootIsMaximumOfBag<T(!new)>(cmp: (T, T) -> int, s: seq<T>)
    requires TotalPreorder(cmp) && IsHeap(cmp, s) && |s| > 0
    ensures IsMaximum(cmp, multiset(s), s[0])
  {
    forall y | y in multiset(s)
      ensures cmp(s[0], y) >= 0
    {
      var i :| 0 <= i < |s| && s[i] == y;
      RootIsMaximum(cmp, s, i);
    }
  }

  ghost predicate NonIncreasing<T>(cmp: (T, T) -> int, s: seq<T>) {
    forall i, j :: 0 <= i < j < |s| ==> cmp(s[i], s[j]) >= 0
  }

  /** Popping until the heap is empty sorts its contents. */
  lemma {:induction false} DrainSorts<T(!new)>(cmp: (T, T) -> int, s: seq<T>)
    requires TotalPreorder(cmp) && IsHeap(cmp, s)
    ensures NonIncreasing(cmp, Drain(cmp, s))
    ensures multiset(Drain(cmp, s)) == multiset(s)
    decreases |s|
  {
    DrainPermutes(cmp, s);
    if s != [] {
      var rest := RemoveRoot(cmp, s);
      RemoveRootKeepsHeap(cmp, s);
      RootIsMaximumOfBag(cmp, s);
      RemoveRootRemoves(cmp, s);
      DrainSorts(cmp, rest);
      var d := Drain(cmp, s);
      forall i, j | 0 <= i < j < |d|
        ensures cmp(d[i], d[j]) >= 0
      {
        if i == 0 {
          assert d[j] in multiset(d);
        } else {
          assert cmp(d[1..][i - 1], d[1..][j - 1]) >= 0;
        }
      }
    }
  }
}
