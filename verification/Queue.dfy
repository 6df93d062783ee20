/** The array-based class that carries out the operations of src/queue.c. */
module Queue {
  import opened Heap
  import opened QueueModel

  /** `cmp` is what `task_compare_priority` makes of the elements during a call. */
  class Queue<T(0)> {
    var items: array<T>
    var size: nat
    var capacity: nat
    var closed: bool

    ghost predicate Valid()
      reads this
    {
      size <= capacity == items.Length
    }

    ghost function State(): QueueState<T>
      requires Valid()
      reads this, items
    {
      QueueState(items[..size], capacity, closed)
    }

    constructor ()
      ensures Valid() && fresh(items)
      ensures State() == QueueModel.Init()
    {
      items := new T[0];
      size, capacity, closed := 0, 0, false;
    }

    method HeapifyUp(cmp: Comparator<T>, index: nat) returns (ghost swaps: nat)
      requires Valid() && index < size
      modifies items
      ensures items[..size] == SiftUp(cmp, old(items[..size]), index)
      ensures items[size..] == old(items[size..])
      ensures swaps == UpSwaps(cmp, old(items[..size]), index)
    {
      var i: nat := index;
      swaps := 0;
      while i > 0
        invariant i < size
        invariant SiftUp(cmp, items[..size], i) == SiftUp(cmp, old(items[..size]), index)
        invariant swaps + UpSwaps(cmp, items[..size], i) == UpSwaps(cmp, old(items[..size]), index)
        invariant items[size..] == old(items[size..])
      {
        var parent := (i - 1) / 2;
        if cmp(items[parent], items[i]) >= 0 {
          break;
        }
        ghost var before := items[..size];
        items[parent], items[i] := items[i], items[parent];
        assert items[..size] == Swap(before, parent, i);
        i := parent;
        swaps := swaps + 1;
      }
    }

    method HeapifyDown(cmp: Comparator<T>, index: nat) returns (ghost swaps: nat)
      requires Valid() && index < size
      modifies items
      ensures items[..size] == SiftDown(cmp, old(items[..size]), index)
      ensures items[size..] == old(items[size..])
      ensures swaps == DownSwaps(cmp, old(items[..size]), index)
    {
      var i: nat := index;
      swaps := 0;
      while true
        invariant i < size
        invariant SiftDown(cmp, items[..size], i) == SiftDown(cmp, old(items[..size]), index)
        invariant swaps + DownSwaps(cmp, items[..size], i) == DownSwaps(cmp, old(items[..size]), index)
        invariant items[size..] == old(items[size..])
        decreases size - i
      {
        var left := 2 * i + 1;
        var right := 2 * i + 2;
        var largest := i;
        if left < size && cmp(items[left], items[largest]) > 0 {
          largest := left;
        }
        if right < size && cmp(items[right], items[largest]) > 0 {
          largest := right;
        }
        ghost var before := items[..size];
        assert largest == Largest(cmp, before, i);
        if largest == i {
          break;
        }
        items[i], items[largest] := items[largest], items[i];
        assert items[..size] == Swap(before, i, largest);
        i := largest;
        swaps := swaps + 1;
      }
    }

    /** Doubles a full array, keeping its contents. */
    method Reserve()
      requires Valid()
      modifies this
      ensures Valid() && size == old(size) && closed == old(closed)
      ensures capacity == Grow(old(size), old(capacity)) && size < capacity
      ensures items[..size] == old(items[..size])
      ensures items == old(items) || fresh(items)
    {
      if size >= capacity {
        var newCapacity := if capacity == 0 then 16 else capacity * 2;
        var newItems := new T[newCapacity];
        forall i | 0 <= i < size {
          newItems[i] := items[i];
        }
        items := newItems;
        capacity := newCapacity;
      }
    }

    method Push(cmp: Comparator<T>, item: T) returns (ok: bool)
      requires Valid()
      modifies this, items
      ensures Valid() && (items == old(items) || fresh(items))
      ensures ok == !old(closed)
      ensures State() == AfterPush(cmp, old(State()), item)
    {
      if closed {
        return false;
      }
      Reserve();
      items[size] := item;
      size := size + 1;
      assert items[..size] == old(items[..size]) + [item];
      ghost var swaps := HeapifyUp(cmp, size - 1);
      return true;
    }

    method Pop(cmp: Comparator<T>) returns (r: PopResult<T>)
      requires Valid()
      modifies this`size, items
      ensures Valid()
      ensures r == PopOutcome(old(State()))
      ensures State() == AfterPop(cmp, old(State()))
    {
      if size == 0 {
        return if closed then Closed else WouldWait;
      }
      r := Popped(items[0]);
      size := size - 1;
      items[0] := items[size];
      assert items[..size] == old(items[..size][0 := items[size - 1]][..size - 1]);
      if size > 0 {
        ghost var swaps := HeapifyDown(cmp, 0);
      }
    }

    method Close()
      requires Valid()
      modifies this`closed
      ensures Valid() && State() == old(State()).(closed := true)
    {
      closed := true;
    }
  }
}
