/** The indexed four-ary deadline heap (src/vibeio/timer.rs): a slab of timers,
    a heap of slab indices, and back pointers, behaving as a map sorted by
    (deadline, insertion order). */
module DeadlineHeap {
  import opened Wrappers

  datatype TimerHandle = TimerHandle(slabIndex: nat, generation: nat)

  datatype TimerEntry<W> = TimerEntry(deadline: int, waker: W, generation: nat, heapIndex: nat)

  // ----- The sorted map the heap stands for -----

  /** A registered timer, without its place in the heap. */
  datatype Timer<W> = Timer(deadline: int, waker: W, generation: nat)

  /** Earlier deadline first, then earlier insertion. */
  predicate Before<W>(a: Timer<W>, b: Timer<W>) {
    a.deadline < b.deadline || (a.deadline == b.deadline && a.generation < b.generation)
  }

  ghost predicate UniqueGenerations<W>(timers: map<nat, Timer<W>>) {
    forall s, t :: s in timers && t in timers && timers[s].generation == timers[t].generation ==> s == t
  }

  ghost predicate Least<W>(timers: map<nat, Timer<W>>, s: nat) {
    s in timers && forall t :: t in timers ==> !Before(timers[t], timers[s])
  }

  lemma {:induction false} SomeLeast<W>(timers: map<nat, Timer<W>>) returns (s: nat)
    requires timers != map[]
    ensures Least(timers, s)
    decreases |timers|
  {
    s :| s in timers;
    var rest := timers - {s};
    assert |rest| == |timers.Keys - {s}| by { assert rest.Keys == timers.Keys - {s}; }
    assert forall t :: t in timers ==> t == s || t in rest;
    if rest != map[] {
      var t := SomeLeast(rest);
      if Before(timers[t], timers[s]) {
        s := t;
      }
    }
  }

  lemma LeastIsUnique<W>(timers: map<nat, Timer<W>>, s: nat, t: nat)
    requires UniqueGenerations(timers) && Least(timers, s) && Least(timers, t)
    ensures s == t
  {
  }

  /** The due timers in the order they expire: take the least while it is due. */
  ghost function Due<W>(timers: map<nat, Timer<W>>, now: int): (due: seq<Timer<W>>)
    decreases |timers|
  {
    if timers == map[] then []
    else
      assert exists s :: Least(timers, s) by { var s := SomeLeast(timers); }
      var s :| Least(timers, s);
      if timers[s].deadline <= now then
        assert (timers - {s}).Keys == timers.Keys - {s};
        [timers[s]] + Due(timers - {s}, now)
      else []
  }

  ghost function NotDue<W>(timers: map<nat, Timer<W>>, now: int): (rest: map<nat, Timer<W>>) {
    map s | s in timers && timers[s].deadline > now :: timers[s]
  }

  // ----- Heap order on keys -----

  datatype Key = Key(deadline: int, generation: nat)

  predicate Less(a: Key, b: Key) {
    a.deadline < b.deadline || (a.deadline == b.deadline && a.generation < b.generation)
  }

  function Parent(i: nat): nat
    requires i > 0
  {
    (i - 1) / 4
  }

  ghost predicate HeapOrdered(keys: seq<Key>) {
    forall i :: 0 < i < |keys| ==> !Less(keys[i], keys[Parent(i)])
  }

  /** Ordered, except that `hole` may be smaller than its parent. */
  ghost predicate OrderedAbove(keys: seq<Key>, hole: nat) {
    && (forall i :: 0 < i < |keys| && i != hole ==> !Less(keys[i], keys[Parent(i)]))
    && (forall i :: 0 < i < |keys| && Parent(i) == hole && hole > 0 ==> !Less(keys[i], keys[Parent(hole)]))
  }

  /** Ordered, except that `hole` may be larger than its children. */
  ghost predicate OrderedBelow(keys: seq<Key>, hole: nat) {
    && (forall i :: 0 < i < |keys| && Parent(i) != hole ==> !Less(keys[i], keys[Parent(i)]))
    && (forall i :: 0 < i < |keys| && Parent(i) == hole && hole > 0 ==> !Less(keys[i], keys[Parent(hole)]))
  }

  function Swapped<T>(s: seq<T>, i: nat, j: nat): (r: seq<T>)
    requires i < |s| && j < |s|
  {
    s[i := s[j]][j := s[i]]
  }

  lemma AboveDone(keys: seq<Key>, i: nat)
    requires i < |keys| && OrderedAbove(keys, i) && (i > 0 ==> !Less(keys[i], keys[Parent(i)]))
    ensures HeapOrdered(keys)
  {
  }

  lemma SwapUp(keys: seq<Key>, i: nat)
    requires 0 < i < |keys| && OrderedAbove(keys, i) && Less(keys[i], keys[Parent(i)])
    ensures OrderedAbove(Swapped(keys, i, Parent(i)), Parent(i))
  {
    var p, keys' := Parent(i), Swapped(keys, i, Parent(i));
    forall j | 0 < j < |keys|
      ensures j != p ==> !Less(keys'[j], keys'[Parent(j)])
      ensures Parent(j) == p && p > 0 ==> !Less(keys'[j], keys'[Parent(p)])
    {
      SwapUpAt(keys, i, p, j, Parent(j));
    }
  }

  /** The same at one place `j` with parent `q`. */
  lemma SwapUpAt(keys: seq<Key>, i: nat, p: nat, j: nat, q: nat)
    requires 0 < i < |keys| && p == Parent(i) && 0 < j < |keys| && q == Parent(j)
    requires OrderedAbove(keys, i) && Less(keys[i], keys[p])
    ensures j != p ==> !Less(Swapped(keys, i, p)[j], Swapped(keys, i, p)[q])
    ensures q == p && p > 0 ==> !Less(Swapped(keys, i, p)[j], Swapped(keys, i, p)[Parent(p)])
  {
    assert q < j && p < i && (p > 0 ==> Parent(p) < p);
    assert j != i ==> !Less(keys[j], keys[q]);
    assert p > 0 ==> !Less(keys[p], keys[Parent(p)]);
    assert q == i && i > 0 ==> !Less(keys[j], keys[p]);
  }

  /** Child `c` of `i` is smaller than `i` and no sibling is smaller. */
  lemma SwapDown(keys: seq<Key>, i: nat, c: nat)
    requires 0 < c < |keys| && Parent(c) == i && OrderedBelow(keys, i) && Less(keys[c], keys[i])
    requires forall d :: 0 < d < |keys| && Parent(d) == i ==> !Less(keys[d], keys[c])
    ensures OrderedBelow(Swapped(keys, i, c), c)
  {
  }

  lemma {:induction false} RootIsLeast(keys: seq<Key>, i: nat)
    requires HeapOrdered(keys) && i < |keys|
    ensures !Less(keys[i], keys[0])
  {
    if i > 0 {
      RootIsLeast(keys, Parent(i));
    }
  }

  // ----- The heap -----

  class DeadlineHeap<W> {
    var entries: map<nat, TimerEntry<W>>
    var heap: seq<nat>
    var nextGeneration: nat

    /** Heap and slab point at each other. */
    ghost predicate Indexed()
      reads this
    {
      && (forall i :: 0 <= i < |heap| ==> heap[i] in entries && entries[heap[i]].heapIndex == i)
      && (forall s :: s in entries ==> entries[s].heapIndex < |heap| && heap[entries[s].heapIndex] == s)
    }

    ghost function Timers(): (timers: map<nat, Timer<W>>)
      reads this
    {
      map s | s in entries :: Timer(entries[s].deadline, entries[s].waker, entries[s].generation)
    }

    ghost function Keys(): (keys: seq<Key>)
      requires Indexed()
      reads this
    {
      seq(|heap|, i requires 0 <= i < |heap| reads this requires Indexed() =>
        Key(entries[heap[i]].deadline, entries[heap[i]].generation))
    }

    ghost predicate Valid()
      reads this
    {
      && Indexed()
      && HeapOrdered(Keys())
      && UniqueGenerations(Timers())
      && (forall s :: s in entries ==> 0 < entries[s].generation <= nextGeneration)
    }

    constructor ()
      ensures Valid() && Timers() == map[] && nextGeneration == 0
    {
      entries, heap, nextGeneration := map[], [], 0;
    }

    predicate LessAt(left: nat, right: nat)
      requires Indexed() && left < |heap| && right < |heap|
      reads this
      ensures LessAt(left, right) == Less(Keys()[left], Keys()[right])
    {
      var l, r := entries[heap[left]], entries[heap[right]];
      l.deadline < r.deadline || (l.deadline == r.deadline && l.generation < r.generation)
    }

    method SwapNodes(left: nat, right: nat)
      requires Indexed() && left < |heap| && right < |heap|
      modifies this`heap, this`entries
      ensures Indexed() && Timers() == old(Timers())
      ensures Keys() == Swapped(old(Keys()), left, right)
      ensures heap == Swapped(old(heap), left, right)
    {
      heap := heap[left := heap[right]][right := heap[left]];
      entries := entries[heap[left] := entries[heap[left]].(heapIndex := left)];
      entries := entries[heap[right] := entries[heap[right]].(heapIndex := right)];
    }

    method SiftUp(start: nat)
      requires Indexed() && start < |heap| && OrderedAbove(Keys(), start)
      modifies this`heap, this`entries
      ensures Indexed() && Timers() == old(Timers()) && HeapOrdered(Keys())
      ensures |heap| == old(|heap|)
    {
      var index: nat := start;
      while index != 0
        invariant Indexed() && Timers() == old(Timers()) && |heap| == old(|heap|)
        invariant index < |heap| && OrderedAbove(Keys(), index)
      {
        var parent := (index - 1) / 4;
        if !LessAt(index, parent) {
          AboveDone(Keys(), index);
          return;
        }
        Raise(index, parent);
        index := parent;
      }
      AboveDone(Keys(), 0);
    }

    /** One step up: the hole moves to the parent. */
    method Raise(index: nat, parent: nat)
      requires Indexed() && 0 < index < |heap| && parent == Parent(index) && OrderedAbove(Keys(), index)
      requires Less(Keys()[index], Keys()[parent])
      modifies this`heap, this`entries
      ensures Indexed() && Timers() == old(Timers()) && |heap| == old(|heap|) && OrderedAbove(Keys(), parent)
    {
      SwapUp(Keys(), index);
      SwapNodes(index, parent);
    }

    method SiftDown(start: nat)
      requires Indexed() && start < |heap| && OrderedBelow(Keys(), start)
      modifies this`heap, this`entries
      ensures Indexed() && Timers() == old(Timers()) && HeapOrdered(Keys())
      ensures |heap| == old(|heap|)
    {
      var index: nat := start;
      while true
        invariant Indexed() && Timers() == old(Timers()) && |heap| == old(|heap|)
        invariant index < |heap| && OrderedBelow(Keys(), index)
        decreases |heap| - index
      {
        var firstChild := index * 4 + 1;
        if firstChild >= |heap| {
          return;
        }
        var smallest := SmallestChild(firstChild);
        if !LessAt(smallest, index) {
          return;
        }
        SwapDown(Keys(), index, smallest);
        SwapNodes(index, smallest);
        index := smallest;
      }
    }

    method SmallestChild(firstChild: nat) returns (smallest: nat)
      requires Indexed() && firstChild % 4 == 1 && firstChild < |heap|
      ensures firstChild <= smallest < |heap| && Parent(smallest) == Parent(firstChild)
      ensures forall d :: 0 < d < |heap| && Parent(d) == Parent(firstChild) ==> !Less(Keys()[d], Keys()[smallest])
    {
      smallest := firstChild;
      var end := if firstChild + 4 < |heap| then firstChild + 4 else |heap|;
      for child := firstChild + 1 to end
        invariant firstChild <= smallest < child
        invariant forall d :: firstChild <= d < child ==> !Less(Keys()[d], Keys()[smallest])
      {
        if LessAt(child, smallest) {
          smallest := child;
        }
      }
    }

    /** Puts a new entry at the end of the heap and sifts it up. */
    method Attach(slabIndex: nat, deadline: int, waker: W, generation: nat)
      requires Indexed() && HeapOrdered(Keys()) && slabIndex !in entries
      modifies this`heap, this`entries
      ensures Indexed() && HeapOrdered(Keys())
      ensures Timers() == old(Timers())[slabIndex := Timer(deadline, waker, generation)]
    {
      ghost var timers, keys := Timers(), Keys();
      var heapIndex := |heap|;
      entries := entries[slabIndex := TimerEntry(deadline, waker, generation, heapIndex)];
      heap := heap + [slabIndex];
      assert Timers() == timers[slabIndex := Timer(deadline, waker, generation)];
      assert Keys() == keys + [Key(deadline, generation)];
      AppendKey(keys, Key(deadline, generation));
      SiftUp(heapIndex);
    }

    /** Registers a timer; the slab key is any vacant one. */
    method Insert(deadline: int, waker: W) returns (handle: TimerHandle)
      requires Valid()
      modifies this
      ensures Valid() && nextGeneration == old(nextGeneration) + 1
      ensures handle.generation == nextGeneration && handle.slabIndex !in old(Timers())
      ensures Timers() == old(Timers())[handle.slabIndex := Timer(deadline, waker, handle.generation)]
    {
      ghost var timers := Timers();
      nextGeneration := nextGeneration + 1;
      ghost var vacant := VacantSlot(entries.Keys);
      var slabIndex: nat :| slabIndex !in entries;
      Attach(slabIndex, deadline, waker, nextGeneration);
      handle := TimerHandle(slabIndex, nextGeneration);
      FreshGeneration(timers, Timers(), slabIndex, nextGeneration);
      GenerationsBounded(nextGeneration);
    }

    /** What the slab knows about generations, read off the timers. */
    lemma GenerationsBounded(bound: nat)
      requires forall s :: s in Timers() ==> 0 < Timers()[s].generation <= bound
      ensures forall s :: s in entries ==> 0 < entries[s].generation <= bound
    {
      forall s | s in entries ensures 0 < entries[s].generation <= bound {
        assert s in Timers();
      }
    }

    method Deadline() returns (first: Option<int>)
      requires Valid()
      ensures first.None? <==> Timers() == map[]
      ensures first.Some? ==> exists s :: Least(Timers(), s) && Timers()[s].deadline == first.value
    {
      if |heap| == 0 {
        assert Timers() == map[];
        return None;
      }
      RootIsLeastTimer();
      first := Some(entries[heap[0]].deadline);
    }

    /** Takes the node at `heapIndex` out: swaps it to the end, pops it and
        frees its slot. The node that took its place is not sifted yet. */
    method TakeOut(heapIndex: nat) returns (waker: W)
      requires Indexed() && heapIndex < |heap|
      modifies this`heap, this`entries
      ensures Indexed() && |heap| == old(|heap|) - 1
      ensures Keys() == Replaced(old(Keys()), heapIndex)
      ensures Timers() == old(Timers()) - {old(heap[heapIndex])}
      ensures waker == old(Timers()[heap[heapIndex]].waker)
    {
      var last := |heap| - 1;
      if heapIndex != last {
        SwapNodes(heapIndex, last);
      }
      ghost var keys := Keys();
      var slabIndex := heap[last];
      heap := heap[..last];
      waker := entries[slabIndex].waker;
      entries := entries - {slabIndex};
      assert Keys() == keys[..last];
    }

    method Remove(handle: TimerHandle) returns (waker: Option<W>)
      requires Valid()
      modifies this`heap, this`entries
      ensures Valid()
      ensures nextGeneration == old(nextGeneration)
      ensures if Live(old(Timers()), handle)
              then
                && waker == Some(old(Timers())[handle.slabIndex].waker)
                && Timers() == old(Timers()) - {handle.slabIndex}
              else waker == None && Timers() == old(Timers())
    {
      if handle.slabIndex !in entries || entries[handle.slabIndex].generation != handle.generation {
        return None;
      }
      ghost var timers, keys := Timers(), Keys();
      var heapIndex := entries[handle.slabIndex].heapIndex;
      var taken := TakeOut(heapIndex);
      if heapIndex < |heap| {
        if heapIndex > 0 && LessAt(heapIndex, (heapIndex - 1) / 4) {
          ReplacedAbove(keys, heapIndex);
          SiftUp(heapIndex);
        } else {
          ReplacedBelow(keys, heapIndex);
          SiftDown(heapIndex);
        }
      } else {
        ReplacedLast(keys);
      }
      waker := Some(taken);
      GenerationsBounded(nextGeneration);
    }

    /** Moves every due waker to `output`, earliest first. */
    method PopExpired(now: int, output: seq<W>) returns (output': seq<W>)
      requires Valid()
      modifies this`heap, this`entries
      ensures Valid()
      ensures output' == output + Wakers(Due(old(Timers()), now))
      ensures Timers() == NotDue(old(Timers()), now)
    {
      output' := output;
      ghost var timers := Timers();
      assert NotDue(timers, now) == NotDue(Timers(), now);
      while |heap| > 0 && entries[heap[0]].deadline <= now
        invariant Valid()
        invariant output' + Wakers(Due(Timers(), now)) == output + Wakers(Due(timers, now))
        invariant NotDue(Timers(), now) == NotDue(timers, now)
        decreases |heap|
      {
        output' := PopRoot(now, output');
      }
      NoneDue(now);
    }

    /** Replaces a live registration's waker without moving it. */
    method UpdateWaker(handle: TimerHandle, waker: W) returns (updated: bool)
      requires Valid()
      modifies this`entries
      ensures Valid() && heap == old(heap)
      ensures updated == Live(old(Timers()), handle)
      ensures Timers() == if updated
                          then old(Timers())[handle.slabIndex := old(Timers())[handle.slabIndex].(waker := waker)]
                          else old(Timers())
    {
      updated := handle.slabIndex in entries && entries[handle.slabIndex].generation == handle.generation;
      if updated {
        ghost var keys, timers := Keys(), Timers();
        entries := entries[handle.slabIndex := entries[handle.slabIndex].(waker := waker)];
        assert Keys() == keys;
        assert Timers() == timers[handle.slabIndex := timers[handle.slabIndex].(waker := waker)];
      }
    }

    ghost function State(): (m: Model<W>)
      reads this
    {
      Model(Timers(), nextGeneration)
    }

    method Serve(request: Request<W>) returns (reply: Reply<W>)
      requires Valid()
      modifies this
      ensures Valid() && Answers(old(State()), request, reply) && State() == Next(old(State()), request, reply)
    {
      match request
      case Register(deadline, waker) =>
        var handle := Insert(deadline, waker);
        reply := Registered(handle);
      case Cancel(handle) =>
        var waker := Remove(handle);
        reply := Cancelled(waker);
      case Expire(now) =>
        var wakers := PopExpired(now, []);
        reply := Expired(wakers);
      case Rewake(handle, waker) =>
        var updated := UpdateWaker(handle, waker);
        reply := Rewoken(updated);
    }

    /** Every sequence of requests is answered as by the sorted map. */
    method Replay(requests: seq<Request<W>>) returns (replies: seq<Reply<W>>)
      requires Valid()
      modifies this
      ensures Valid() && Explains(old(State()), requests, replies)
      ensures State() == Reached(old(State()), requests, replies)
    {
      replies := [];
      ghost var start := State();
      for i := 0 to |requests|
        invariant Valid() && |replies| == i
        invariant Explains(start, requests[..i], replies)
        invariant State() == Reached(start, requests[..i], replies)
      {
        var reply := Serve(requests[i]);
        ExplainsMore(start, requests[..i], replies, requests[i], reply);
        assert requests[..i + 1] == requests[..i] + [requests[i]];
        replies := replies + [reply];
      }
      assert requests[..|requests|] == requests;
    }

    method PopRoot(now: int, output: seq<W>) returns (output': seq<W>)
      requires Valid() && |heap| > 0 && entries[heap[0]].deadline <= now
      modifies this`heap, this`entries
      ensures Valid() && |heap| < old(|heap|)
      ensures output' + Wakers(Due(Timers(), now)) == output + Wakers(Due(old(Timers()), now))
      ensures NotDue(Timers(), now) == NotDue(old(Timers()), now)
    {
      ghost var timers, keys, root := Timers(), Keys(), heap[0];
      RootIsLeastTimer();
      DueFirst(timers, root, now);
      var waker := TakeOut(0);
      SettleRoot(keys);
      output' := output + [waker];
      GenerationsBounded(nextGeneration);
    }

    /** Restores heap order after the root was taken out. */
    method SettleRoot(ghost keys: seq<Key>)
      requires Indexed() && HeapOrdered(keys) && |keys| > 0 && Keys() == Replaced(keys, 0)
      modifies this`heap, this`entries
      ensures Indexed() && HeapOrdered(Keys()) && Timers() == old(Timers()) && |heap| == old(|heap|)
    {
      if |heap| != 0 {
        ReplacedBelow(keys, 0);
        SiftDown(0);
      } else {
        ReplacedLast(keys);
      }
    }

    lemma NoneDue(now: int)
      requires Valid() && (|heap| == 0 || entries[heap[0]].deadline > now)
      ensures Due(Timers(), now) == [] && NotDue(Timers(), now) == Timers()
    {
      if |heap| == 0 {
        assert Timers() == map[];
      } else {
        RootIsLeastTimer();
        LaterThanLeast(Timers(), heap[0], now);
      }
    }

    lemma RootIsLeastTimer()
      requires Valid() && |heap| > 0
      ensures Least(Timers(), heap[0])
    {
      forall t | t in Timers() ensures !Before(Timers()[t], Timers()[heap[0]]) {
        RootIsLeast(Keys(), entries[t].heapIndex);
      }
    }
  }

  /** A handle names a timer that is still registered: its slot holds a timer
      of the same generation. */
  predicate Live<W>(timers: map<nat, Timer<W>>, handle: TimerHandle) {
    handle.slabIndex in timers && timers[handle.slabIndex].generation == handle.generation
  }

  function Wakers<W>(timers: seq<Timer<W>>): (wakers: seq<W>) {
    seq(|timers|, i requires 0 <= i < |timers| => timers[i].waker)
  }

  lemma DueFirst<W>(timers: map<nat, Timer<W>>, s: nat, now: int)
    requires UniqueGenerations(timers) && Least(timers, s) && timers[s].deadline <= now
    ensures Due(timers, now) == [timers[s]] + Due(timers - {s}, now)
    ensures Wakers(Due(timers, now)) == [timers[s].waker] + Wakers(Due(timers - {s}, now))
    ensures NotDue(timers - {s}, now) == NotDue(timers, now)
  {
    forall t | Least(timers, t) ensures t == s {
      LeastIsUnique(timers, s, t);
    }
  }

  lemma LaterThanLeast<W>(timers: map<nat, Timer<W>>, s: nat, now: int)
    requires UniqueGenerations(timers) && Least(timers, s) && timers[s].deadline > now
    ensures Due(timers, now) == [] && NotDue(timers, now) == timers
  {
    forall t | Least(timers, t) ensures t == s {
      LeastIsUnique(timers, s, t);
    }
    assert forall t :: t in timers ==> !Before(timers[t], timers[s]);
  }

  lemma {:induction false} VacantSlot(used: set<nat>) returns (bound: nat)
    ensures forall n :: n in used ==> n < bound
    ensures bound !in used
  {
    bound := 0;
    if used != {} {
      var x :| x in used;
      var rest := VacantSlot(used - {x});
      bound := if rest <= x then x + 1 else rest;
      assert forall n :: n in used ==> n == x || n in used - {x};
    }
  }

  /** The keys after the last one took the place of key `i`. */
  function Replaced(keys: seq<Key>, i: nat): (r: seq<Key>)
    requires i < |keys|
  {
    Swapped(keys, i, |keys| - 1)[..|keys| - 1]
  }

  lemma ReplacedAbove(keys: seq<Key>, i: nat)
    requires HeapOrdered(keys) && 0 < i < |keys| - 1
    requires Less(Replaced(keys, i)[i], Replaced(keys, i)[Parent(i)])
    ensures OrderedAbove(Replaced(keys, i), i)
  {
  }

  lemma ReplacedBelow(keys: seq<Key>, i: nat)
    requires HeapOrdered(keys) && i < |keys| - 1
    requires i > 0 ==> !Less(Replaced(keys, i)[i], Replaced(keys, i)[Parent(i)])
    ensures OrderedBelow(Replaced(keys, i), i)
  {
  }

  lemma ReplacedLast(keys: seq<Key>)
    requires HeapOrdered(keys) && |keys| > 0
    ensures HeapOrdered(Replaced(keys, |keys| - 1))
  {
  }

  lemma AppendKey(keys: seq<Key>, key: Key)
    requires HeapOrdered(keys)
    ensures OrderedAbove(keys + [key], |keys|)
  {
  }

  lemma FreshGeneration<W>(timers: map<nat, Timer<W>>, timers': map<nat, Timer<W>>, s: nat, generation: nat)
    requires UniqueGenerations(timers) && s !in timers && s in timers' && timers' == timers[s := timers'[s]]
    requires timers'[s].generation == generation && forall t :: t in timers ==> timers[t].generation < generation
    ensures UniqueGenerations(timers')
  {
  }

  ghost predicate Ascending<W>(timers: seq<Timer<W>>) {
    forall i, j :: 0 <= i < j < |timers| ==> Before(timers[i], timers[j])
  }

  /** `due` lists exactly the timers whose deadline has passed. */
  ghost predicate Exactly<W>(timers: map<nat, Timer<W>>, now: int, due: seq<Timer<W>>) {
    && (forall s :: s in timers && timers[s].deadline <= now ==> timers[s] in due)
    && (forall i :: 0 <= i < |due| ==> due[i].deadline <= now && due[i] in timers.Values)
  }

  /** The due timers come out in strictly ascending order, and they are exactly
      the timers whose deadline has passed. */
  lemma {:induction false} DueIsExact<W>(timers: map<nat, Timer<W>>, now: int)
    requires UniqueGenerations(timers)
    ensures Exactly(timers, now, Due(timers, now)) && Ascending(Due(timers, now))
    decreases |timers|
  {
    if timers != map[] {
      var s := SomeLeast(timers);
      if timers[s].deadline <= now {
        var rest := timers - {s};
        assert rest.Keys == timers.Keys - {s};
        DueFirst(timers, s, now);
        DueIsExact(rest, now);
        ExactlyFirst(timers, s, now, Due(rest, now));
      } else {
        LaterThanLeast(timers, s, now);
        NothingDue(timers, s, now);
      }
    }
  }

  lemma NothingDue<W>(timers: map<nat, Timer<W>>, s: nat, now: int)
    requires Least(timers, s) && timers[s].deadline > now
    ensures Exactly(timers, now, [])
  {
  }

  lemma ExactlyFirst<W>(timers: map<nat, Timer<W>>, s: nat, now: int, rest: seq<Timer<W>>)
    requires UniqueGenerations(timers) && Least(timers, s) && timers[s].deadline <= now
    requires Exactly(timers - {s}, now, rest) && Ascending(rest)
    ensures Exactly(timers, now, [timers[s]] + rest) && Ascending([timers[s]] + rest)
  {
    forall i | 0 <= i < |rest| ensures Before(timers[s], rest[i]) && rest[i] in timers.Values {
      assert rest[i] in (timers - {s}).Values;
      var t :| t in timers - {s} && (timers - {s})[t] == rest[i];
      assert !Before(timers[t], timers[s]) && timers[t] in timers.Values;
    }
    forall t | t in timers && timers[t].deadline <= now ensures timers[t] in [timers[s]] + rest {
      if t != s {
        assert t in timers - {s} && (timers - {s})[t] == timers[t];
      }
    }
  }

  // ----- Whole histories -----

  datatype Request<W> =
    | Register(deadline: int, waker: W)
    | Cancel(handle: TimerHandle)
    | Expire(now: int)
    | Rewake(handle: TimerHandle, waker: W)

  datatype Reply<W> =
    | Registered(handle: TimerHandle) | Cancelled(removed: Option<W>) | Expired(wakers: seq<W>) | Rewoken(updated: bool)

  datatype Model<W> = Model(timers: map<nat, Timer<W>>, nextGeneration: nat)

  /** What the sorted map may answer. */
  ghost predicate Answers<W>(m: Model<W>, request: Request<W>, reply: Reply<W>) {
    match request
    case Register(_, _) =>
      reply.Registered? && reply.handle.generation == m.nextGeneration + 1 && reply.handle.slabIndex !in m.timers
    case Cancel(h) =>
      reply == Cancelled(if Live(m.timers, h) then Some(m.timers[h.slabIndex].waker) else None)
    case Expire(now) => reply == Expired(Wakers(Due(m.timers, now)))
    case Rewake(h, _) => reply == Rewoken(Live(m.timers, h))
  }

  ghost function Next<W>(m: Model<W>, request: Request<W>, reply: Reply<W>): (m': Model<W>) {
    match request
    case Register(deadline, waker) =>
      if reply.Registered?
      then
        var timer := Timer(deadline, waker, reply.handle.generation);
        Model(m.timers[reply.handle.slabIndex := timer], m.nextGeneration + 1)
      else m
    case Cancel(h) => if Live(m.timers, h) then m.(timers := m.timers - {h.slabIndex}) else m
    case Expire(now) => m.(timers := NotDue(m.timers, now))
    case Rewake(h, waker) =>
      if Live(m.timers, h)
      then m.(timers := m.timers[h.slabIndex := m.timers[h.slabIndex].(waker := waker)])
      else m
  }

  ghost function Reached<W>(m: Model<W>, requests: seq<Request<W>>, replies: seq<Reply<W>>): (m': Model<W>)
    requires |requests| == |replies|
  {
    if requests == [] then m
    else
      var last := |requests| - 1;
      Next(Reached(m, requests[..last], replies[..last]), requests[last], replies[last])
  }

  ghost predicate Explains<W>(m: Model<W>, requests: seq<Request<W>>, replies: seq<Reply<W>>) {
    && |requests| == |replies|
    && (requests == [] ||
        var last := |requests| - 1;
        && Explains(m, requests[..last], replies[..last])
        && Answers(Reached(m, requests[..last], replies[..last]), requests[last], replies[last]))
  }

  lemma ExplainsMore<W>(m: Model<W>, requests: seq<Request<W>>, replies: seq<Reply<W>>, request: Request<W>,
                        reply: Reply<W>)
    requires Explains(m, requests, replies) && Answers(Reached(m, requests, replies), request, reply)
    ensures Explains(m, requests + [request], replies + [reply])
    ensures Reached(m, requests + [request], replies + [reply]) == Next(Reached(m, requests, replies), request, reply)
  {
    assert (requests + [request])[..|requests|] == requests;
    assert (replies + [reply])[..|replies|] == replies;
  }

  /** A handle that was issued and is no longer live stays dead, whatever is
      registered, cancelled, expired or given a new waker later: it can never
      touch a timer that reused its slot. */
  lemma {:induction false} StaleForever<W>(m: Model<W>, requests: seq<Request<W>>, replies: seq<Reply<W>>,
                                           handle: TimerHandle)
    requires Explains(m, requests, replies)
    requires handle.generation <= m.nextGeneration && !Live(m.timers, handle)
    ensures !Live(Reached(m, requests, replies).timers, handle)
    ensures m.nextGeneration <= Reached(m, requests, replies).nextGeneration
    decreases |requests|
  {
    if requests != [] {
      var last := |requests| - 1;
      StaleForever(m, requests[..last], replies[..last], handle);
    }
  }
}
