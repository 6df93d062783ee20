/**
 The response map of src/main.c: a queue of entries that is searched by client id and from
 which entries are removed by moving the last one into their place.  Pushing sifts entries
 with a comparator that means nothing for them and may answer differently at each push, so
 everything here holds for any.
 */
module ResponseMap {
  import opened Types
  import opened Heap
  import opened QueueModel
  import Queue

  /** A response entry; `address` tells apart the entries that have been allocated. */
  datatype Entry = Entry(address: nat, clientId: nat)

  /** The linear scan: the first entry for the client. */
  function Scan(s: seq<Entry>, id: nat, from: nat := 0): (k: Option<nat>)
    requires from <= |s|
    ensures k.Some? ==> from <= k.value < |s| && s[k.value].clientId == id
    ensures k.None? <==> forall i :: from <= i < |s| ==> s[i].clientId != id
    decreases |s| - from
  {
    if from == |s| then None
    else if s[from].clientId == id then Some(from)
    else Scan(s, id, from + 1)
  }

  function Lookup(s: seq<Entry>, id: nat): Option<Entry> {
    var k := Scan(s, id);
    if k.Some? then Some(s[k.value]) else None
  }

  /** Removal by swap with the last. */
  function RemoveAt<T>(s: seq<T>, k: nat): (r: seq<T>)
    requires k < |s|
    ensures |r| == |s| - 1
  {
    if k < |s| - 1 then s[k := s[|s| - 1]][..|s| - 1] else s[..|s| - 1]
  }

  function Deregistered(s: seq<Entry>, id: nat): seq<Entry> {
    var k := Scan(s, id);
    if k.Some? then RemoveAt(s, k.value) else s
  }

  // ---------- The code ----------

  /** The scan in `client_thread_main` and `send_response`. */
  method FindEntry(q: Queue.Queue<Entry>, id: nat) returns (entry: Option<Entry>)
    requires q.Valid()
    ensures entry == Lookup(q.State().items, id)
  {
    var i := 0;
    while i < q.size
      invariant i <= q.size
      invariant Scan(q.State().items, id) == Scan(q.State().items, id, i)
    {
      if q.items[i].clientId == id {
        return Some(q.items[i]);
      }
      i := i + 1;
    }
    return None;
  }

  /** `register_client_response_queue`. */
  method Register(q: Queue.Queue<Entry>, cmp: Comparator<Entry>, entry: Entry) returns (ok: bool)
    requires q.Valid()
    modifies q, q.items
    ensures q.Valid() && ok == !old(q.closed)
    ensures q.State() == AfterPush(cmp, old(q.State()), entry)
  {
    ok := q.Push(cmp, entry);
  }

  /** `deregister_client_response_queue`, up to the destruction of the entry. */
  method Deregister(q: Queue.Queue<Entry>, id: nat) returns (found: Option<Entry>)
    requires q.Valid()
    modifies q`size, q.items
    ensures q.Valid()
    ensures found == Lookup(old(q.State()).items, id)
    ensures q.State() == old(q.State()).(items := Deregistered(old(q.State().items), id))
  {
    found := None;
    var foundIndex := 0;
    var i := 0;
    ghost var s := q.State().items;
    while i < q.size
      invariant i <= q.size
      invariant found.None? && Scan(s, id) == Scan(s, id, i)
    {
      if q.items[i].clientId == id {
        found, foundIndex := Some(q.items[i]), i;
        break;
      }
      i := i + 1;
    }
    if found.Some? {
      if foundIndex < q.size - 1 {
        q.items[foundIndex] := q.items[q.size - 1];
      }
      q.size := q.size - 1;
      assert q.items[..q.size] == RemoveAt(s, foundIndex);
    }
  }

  // ---------- The map it stands for ----------

  lemma RemoveAtRemoves<T>(s: seq<T>, k: nat)
    requires k < |s|
    ensures multiset(RemoveAt(s, k)) == multiset(s) - multiset{s[k]}
  {
    var n := |s| - 1;
    assert s == s[..n] + [s[n]];
    if k < n {
      assert s[..n] == s[..k] + [s[k]] + s[k + 1..n];
      assert RemoveAt(s, k) == s[..k] + [s[n]] + s[k + 1..n];
    }
  }

  /** The entries are exactly those of the map, each once, each under its own client id. */
  ghost predicate Represents(s: seq<Entry>, live: map<nat, Entry>) {
    && (forall id :: id in live ==> live[id].clientId == id)
    && (forall e :: multiset(s)[e] == if e.clientId in live && live[e.clientId] == e then 1 else 0)
  }

  lemma DistinctIds(s: seq<Entry>, live: map<nat, Entry>, i: nat, j: nat)
    requires Represents(s, live) && i < j < |s|
    ensures s[i].clientId != s[j].clientId
  {
    assert s[i] in multiset(s) && s[j] in multiset(s);
    if s[i] == s[j] {
      TwoOccurrences(s, i, j);
    }
  }

  lemma TwoOccurrences<T>(s: seq<T>, i: nat, j: nat)
    requires i < j < |s| && s[i] == s[j]
    ensures multiset(s)[s[j]] >= 2
  {
    assert s == s[..j] + [s[j]] + s[j + 1..];
    assert s[i] in s[..j];
  }

  /** The linear scan finds the entry of a live client, and nothing for any other. */
  lemma ScanFindsLive(s: seq<Entry>, live: map<nat, Entry>, id: nat)
    requires Represents(s, live)
    ensures Lookup(s, id) == if id in live then Some(live[id]) else None
  {
    var k := Scan(s, id);
    if id in live {
      assert live[id] in multiset(s);
    }
    if k.Some? {
      assert s[k.value] in multiset(s);
    }
  }

  datatype Op = Accept(address: nat) | Leave(id: nat) | Close

  datatype MapState = MapState(queue: QueueState<Entry>, nextId: nat)

  /** `main` numbers the connections; a client thread removes its own entry. */
  function Exec(cmp: Comparator<Entry>, m: MapState, op: Op): MapState {
    match op
    case Accept(a) => MapState(AfterPush(cmp, m.queue, Entry(a, m.nextId)), m.nextId + 1)
    case Leave(id) => m.(queue := m.queue.(items := Deregistered(m.queue.items, id)))
    case Close => m.(queue := m.queue.(closed := true))
  }

  function Run(cmps: seq<Comparator<Entry>>, m: MapState, ops: seq<Op>): MapState
    requires |cmps| == |ops|
    decreases |ops|
  {
    if ops == [] then m else Run(cmps[1..], Exec(cmps[0], m, ops[0]), ops[1..])
  }

  /** The same history on a map from client id to entry. */
  function LiveAfter(live: map<nat, Entry>, nextId: nat, closed: bool, op: Op): map<nat, Entry> {
    match op
    case Accept(a) => if closed then live else live[nextId := Entry(a, nextId)]
    case Leave(id) => live - {id}
    case Close => live
  }

  function LiveRun(live: map<nat, Entry>, nextId: nat, closed: bool, ops: seq<Op>): map<nat, Entry>
    decreases |ops|
  {
    if ops == [] then live
    else
      LiveRun(LiveAfter(live, nextId, closed, ops[0]),
              if ops[0].Accept? then nextId + 1 else nextId, closed || ops[0].Close?, ops[1..])
  }

  ghost predicate RoutingInv(m: MapState, live: map<nat, Entry>) {
    && Represents(m.queue.items, live)
    && forall id :: id in live ==> id < m.nextId
  }

  lemma LeaveKeepsRouting(s: seq<Entry>, live: map<nat, Entry>, id: nat)
    requires Represents(s, live)
    ensures Represents(Deregistered(s, id), live - {id})
  {
    ScanFindsLive(s, live, id);
    var k := Scan(s, id);
    if k.Some? {
      RemoveAtRemoves(s, k.value);
    }
  }

  lemma ExecKeepsRouting(cmp: Comparator<Entry>, m: MapState, live: map<nat, Entry>, op: Op)
    requires RoutingInv(m, live)
    ensures RoutingInv(Exec(cmp, m, op), LiveAfter(live, m.nextId, m.queue.closed, op))
  {
    match op
    case Accept(a) => InsertAdds(cmp, m.queue.items, Entry(a, m.nextId));
    case Leave(id) => LeaveKeepsRouting(m.queue.items, live, id);
    case Close =>
  }

  lemma ExecCounts(cmp: Comparator<Entry>, m: MapState, op: Op)
    ensures var m1 := Exec(cmp, m, op);
            && m1.nextId == (if op.Accept? then m.nextId + 1 else m.nextId)
            && (m1.queue.closed <==> m.queue.closed || op.Close?)
  {
  }

  lemma {:induction false} RoutingAlongRun(cmps: seq<Comparator<Entry>>, m: MapState, live: map<nat, Entry>, ops: seq<Op>)
    requires |cmps| == |ops| && RoutingInv(m, live)
    ensures RoutingInv(Run(cmps, m, ops), LiveRun(live, m.nextId, m.queue.closed, ops))
    decreases |ops|
  {
    if ops != [] {
      var m1 := Exec(cmps[0], m, ops[0]);
      var live1 := LiveAfter(live, m.nextId, m.queue.closed, ops[0]);
      ExecKeepsRouting(cmps[0], m, live, ops[0]);
      ExecCounts(cmps[0], m, ops[0]);
      RoutingAlongRun(cmps[1..], m1, live1, ops[1..]);
    }
  }

  /**
   Over any history from an empty map, with any comparator at each push, the searched array stands
   for the map of live connections: ids are below the next one and none occurs twice, and
   the scan finds the entry of each live client and nothing for any other id.
   */
  lemma ScanAfterAnyRun(cmps: seq<Comparator<Entry>>, ops: seq<Op>, id: nat, i: nat, j: nat)
    requires |cmps| == |ops|
    ensures var m := Run(cmps, MapState(QueueModel.Init(), 1), ops);
            var live := LiveRun(map[], 1, false, ops);
            && Lookup(m.queue.items, id) == (if id in live then Some(live[id]) else None)
            && (id in live ==> id < m.nextId)
            && (i < j < |m.queue.items| ==> m.queue.items[i].clientId != m.queue.items[j].clientId)
  {
    EmptyRouting();
    RoutingAlongRun(cmps, MapState(QueueModel.Init(), 1), map[], ops);
    var m := Run(cmps, MapState(QueueModel.Init(), 1), ops);
    var live := LiveRun(map[], 1, false, ops);
    ScanFindsLive(m.queue.items, live, id);
    if i < j < |m.queue.items| {
      DistinctIds(m.queue.items, live, i, j);
    }
  }

  lemma EmptyRouting()
    ensures RoutingInv(MapState(QueueModel.Init(), 1), map[])
  {
  }

  // ---------- What removal does to the heap ----------

  /** The element moved into place `k` fits there as a heap element. */
  ghost predicate LastFits<T>(cmp: (T, T) -> int, s: seq<T>, k: nat)
    requires k < |s|
  {
    var last := s[|s| - 1];
    && (k > 0 ==> cmp(s[Parent(k)], last) >= 0)
    && (forall j :: k < j < |s| - 1 && Parent(j) == k ==> cmp(last, s[j]) >= 0)
  }

  /** Removal keeps the heap order exactly when the removed or the moved element allows it. */
  lemma RemovalKeepsHeapIff<T(!new)>(cmp: (T, T) -> int, s: seq<T>, k: nat)
    requires IsHeap(cmp, s) && k < |s|
    ensures IsHeap(cmp, RemoveAt(s, k)) <==> k == |s| - 1 || LastFits(cmp, s, k)
  {
  }

  /** Removing element 3 of this heap of numbers leaves an array that is not a heap. */
  lemma RemovalCanBreakHeap() returns (s: seq<int>)
    ensures IsHeap((a, b) => a - b, s) && 3 < |s|
    ensures !IsHeap((a, b) => a - b, RemoveAt(s, 3))
  {
    s := [10, 5, 9, 4, 3, 8, 7];
    var r := RemoveAt(s, 3);
    assert Parent(1) == 0 && Parent(2) == 0 && Parent(3) == 1 && Parent(4) == 1 && Parent(5) == 2 && Parent(6) == 2;
    assert r[Parent(3)] == 5 && r[3] == 7;
  }
}
