/** The queue of Python timers: a FIFO for immediately due timers and a heap
    for the rest, which must act as one priority queue (`TimerQueue` in
    src/engine/timer_entry.rs), and the collection of due timers in each turn
    (`LocalTimers` in src/engine/loop_core.rs).

    The standard library's binary heap is a multiset that pops its greatest
    entry in the comparison of the source. */
module Timers {
  import opened Sequences
  import opened Wrappers

  const SIGNAL_POLL_INTERVAL: nat := 50  // milliseconds

  /** The source breaks ties by `seq`, which is the identity of the callback. */
  datatype Entry = Entry(when: int, id: nat)

  datatype Ordering = Less | Equal | Greater

  function CompareInt(a: int, b: int): Ordering {
    if a < b then Less else if a == b then Equal else Greater
  }

  /** Earlier deadline first, then insertion order. */
  predicate Before(a: Entry, b: Entry) {
    a.when < b.when || (a.when == b.when && a.id < b.id)
  }

  /** The comparison of entries, reversed because the heap pops its greatest. */
  function Compare(left: Entry, right: Entry): (o: Ordering)
    ensures o.Greater? <==> Before(left, right)
    ensures o.Less? <==> Before(right, left)
    ensures o.Equal? <==> left == right
  {
    match CompareInt(right.when, left.when)
    case Less => Less
    case Greater => Greater
    case Equal => CompareInt(right.id, left.id)
  }

  // ----- The specification: one sorted sequence -----

  predicate Sorted(s: seq<Entry>) {
    forall i, j :: 0 <= i < j < |s| ==> !Before(s[j], s[i])
  }

  predicate IsLeast(e: Entry, m: multiset<Entry>) {
    e in m && forall f :: f in m ==> !Before(f, e)
  }

  lemma {:induction false} LeastExists(m: multiset<Entry>)
    requires m != multiset{}
    ensures exists e :: IsLeast(e, m)
    decreases |m|
  {
    var x :| x in m;
    var rest := m - multiset{x};
    if rest == multiset{} {
      assert m == multiset{x};
      assert IsLeast(x, m);
    } else {
      LeastExists(rest);
      var e :| IsLeast(e, rest);
      assert forall f :: f in m ==> f == x || f in rest;
      assert IsLeast(if Before(x, e) then x else e, m);
    }
  }

  ghost function Least(m: multiset<Entry>): (e: Entry)
    requires m != multiset{}
    ensures IsLeast(e, m)
  {
    LeastExists(m);
    var e :| IsLeast(e, m);
    e
  }

  /** The entries in the order one priority queue pops them. */
  ghost function InOrder(m: multiset<Entry>): (s: seq<Entry>)
    decreases |m|
  {
    if m == multiset{} then [] else [Least(m)] + InOrder(m - multiset{Least(m)})
  }

  lemma Prepend(e: Entry, rest: seq<Entry>)
    requires Sorted(rest) && forall f :: f in multiset(rest) ==> !Before(f, e)
    ensures Sorted([e] + rest) && multiset([e] + rest) == multiset{e} + multiset(rest)
  {
    assert forall i :: 0 <= i < |rest| ==> rest[i] in multiset(rest);
  }

  lemma {:induction false} InOrderIsSorted(m: multiset<Entry>)
    ensures Sorted(InOrder(m)) && multiset(InOrder(m)) == m
    decreases |m|
  {
    if m != multiset{} {
      var e := Least(m);
      InOrderIsSorted(m - multiset{e});
      Prepend(e, InOrder(m - multiset{e}));
      assert multiset{e} + (m - multiset{e}) == m;
    }
  }

  lemma HeadTail(s: seq<Entry>)
    requires s != []
    ensures multiset(s) == multiset{s[0]} + multiset(s[1..])
  {
    assert s == [s[0]] + s[1..];
  }

  lemma FirstOfSorted(s: seq<Entry>)
    requires s != [] && Sorted(s)
    ensures IsLeast(s[0], multiset(s))
  {
  }

  lemma NothingBefore(e: Entry, s: seq<Entry>)
    requires Sorted(s) && (s != [] ==> Before(e, s[0]))
    ensures forall f :: f in multiset(s) ==> !Before(f, e)
  {
  }

  lemma LeastIsUnique(a: Entry, b: Entry, m: multiset<Entry>)
    requires IsLeast(a, m) && IsLeast(b, m)
    ensures a == b
  {
  }

  /** The least of one part, if nothing in the other part is before it, is the
      first of both in order. */
  lemma FirstOfBoth(part: multiset<Entry>, other: multiset<Entry>, e: Entry, rest: multiset<Entry>)
    requires IsLeast(e, part) && forall f :: f in other ==> !Before(f, e)
    requires part == multiset{e} + rest
    ensures IsLeast(e, part + other) && (part + other) - multiset{e} == rest + other
    ensures InOrder(part + other) == [e] + InOrder(rest + other)
    ensures part + other == multiset{e} + (rest + other)
  {
    PopsLeast(part + other, e);
    assert (part + other) - multiset{e} == rest + other;
  }

  lemma FirstOfEither(other: multiset<Entry>, part: multiset<Entry>, e: Entry, rest: multiset<Entry>)
    requires IsLeast(e, part) && forall f :: f in other ==> !Before(f, e)
    requires part == multiset{e} + rest
    ensures IsLeast(e, other + part)
    ensures InOrder(other + part) == [e] + InOrder(other + rest)
    ensures other + part == multiset{e} + (other + rest)
  {
    FirstOfBoth(part, other, e, rest);
    assert part + other == other + part && rest + other == other + rest;
  }

  lemma SameTails(m: multiset<Entry>, e: Entry, a: multiset<Entry>, b: multiset<Entry>)
    requires m == multiset{e} + a && m == multiset{e} + b
    ensures a == b
  {
    assert a == m - multiset{e} == b;
  }

  /** A sorted sequence is determined by what it holds. */
  lemma {:induction false} SortedIsUnique(s: seq<Entry>, t: seq<Entry>)
    requires Sorted(s) && Sorted(t) && multiset(s) == multiset(t)
    ensures s == t
  {
    if s == [] || t == [] {
      assert |multiset(s)| == |s|;
      assert |multiset(t)| == |t|;
    } else {
      FirstOfSorted(s);
      FirstOfSorted(t);
      LeastIsUnique(s[0], t[0], multiset(s));
      HeadTail(s);
      HeadTail(t);
      SameTails(multiset(s), s[0], multiset(s[1..]), multiset(t[1..]));
      SortedIsUnique(s[1..], t[1..]);
    }
  }

  lemma PopsLeast(m: multiset<Entry>, e: Entry)
    requires IsLeast(e, m)
    ensures InOrder(m) == [e] + InOrder(m - multiset{e})
  {
    LeastIsUnique(e, Least(m), m);
  }

  /** Entries that do not look cancelled. */
  function Live(looks: nat -> bool): Entry -> bool {
    (e: Entry) => !looks(e.id)
  }

  function Cancelled(looks: nat -> bool): Entry -> bool {
    (e: Entry) => looks(e.id)
  }

  function LiveAndDue(now: int, looks: nat -> bool): Entry -> bool {
    (e: Entry) => e.when <= now && !looks(e.id)
  }

  lemma FilterPartition(s: seq<Entry>, looks: nat -> bool)
    ensures multiset(Filter(s, Live(looks))) + multiset(Filter(s, Cancelled(looks))) == multiset(s)
    ensures forall e :: e in Filter(s, Live(looks)) ==> !looks(e.id)
    ensures forall e :: e in Filter(s, Cancelled(looks)) ==> looks(e.id)
  {
    forall e: Entry
      ensures multiset(Filter(s, Live(looks)))[e] == if looks(e.id) then 0 else multiset(s)[e]
      ensures multiset(Filter(s, Cancelled(looks)))[e] == if looks(e.id) then multiset(s)[e] else 0
    {
      FilterMembers(s, Live(looks), e);
      FilterMembers(s, Cancelled(looks), e);
    }
    assert forall e :: e in Filter(s, Live(looks)) ==> e in multiset(Filter(s, Live(looks)));
    assert forall e :: e in Filter(s, Cancelled(looks)) ==> e in multiset(Filter(s, Cancelled(looks)));
  }

  lemma {:induction false} FilterSorted(s: seq<Entry>, keep: Entry -> bool)
    requires Sorted(s)
    ensures Sorted(Filter(s, keep))
  {
    if s != [] {
      var rest := Filter(s[1..], keep);
      FilterSorted(s[1..], keep);
      forall e | e in rest
        ensures e in s[1..]
      {
        FilterMembers(s[1..], keep, e);
        assert e in multiset(rest) && e in multiset(s[1..]);
      }
      assert forall e :: e in s[1..] ==> !Before(e, s[0]);
    }
  }

  /** A sorted sequence whose kept members are those of `m` is `m` in order,
      filtered. */
  lemma SortedFilter(s: seq<Entry>, rest: multiset<Entry>, keep: Entry -> bool)
    requires Sorted(s) && forall e :: e in rest ==> !keep(e)
    ensures Filter(s, keep) == Filter(InOrder(multiset(s) + rest), keep)
  {
    var all := InOrder(multiset(s) + rest);
    InOrderIsSorted(multiset(s) + rest);
    FilterSorted(s, keep);
    FilterSorted(all, keep);
    forall e
      ensures multiset(Filter(s, keep))[e] == multiset(Filter(all, keep))[e]
    {
      FilterMembers(s, keep, e);
      FilterMembers(all, keep, e);
      assert !keep(e) || e !in rest;
    }
    assert multiset(Filter(s, keep)) == multiset(Filter(all, keep));
    SortedIsUnique(Filter(s, keep), Filter(all, keep));
  }

  /** Removing entries keeps the pop order of the others. */
  lemma RemovalKeepsOrder(kept: multiset<Entry>, gone: multiset<Entry>, looks: nat -> bool)
    requires forall e :: e in kept ==> !looks(e.id)
    requires forall e :: e in gone ==> looks(e.id)
    ensures InOrder(kept) == Filter(InOrder(kept + gone), Live(looks))
  {
    var keep := Live(looks);
    InOrderIsSorted(kept);
    SortedFilter(InOrder(kept), gone, keep);
    assert forall e :: e in InOrder(kept) ==> e in multiset(InOrder(kept));
    FilterAll(InOrder(kept), keep);
  }

  /** `ordered` stays sorted. The flags that callbacks read as are a
      parameter: each call looks at an entry's cancelled flag at most once. */
  class TimerQueue {
    var ordered: seq<Entry>
    var unordered: multiset<Entry>

    ghost predicate Valid() reads this {
      Sorted(ordered)
    }

    ghost function Contents(): (m: multiset<Entry>) reads this {
      multiset(ordered) + unordered
    }

    constructor ()
      ensures Valid() && Contents() == multiset{}
    {
      ordered := [];
      unordered := multiset{};
    }

    method IsEmpty() returns (empty: bool)
      ensures empty <==> Contents() == multiset{}
    {
      assert ordered != [] ==> ordered[0] in Contents();
      empty := ordered == [] && unordered == multiset{};
    }

    /** The entry the heap would pop: no entry compares greater. */
    method HeapTop() returns (top: Option<Entry>)
      ensures top.None? <==> unordered == multiset{}
      ensures top.Some? ==> IsLeast(top.value, unordered)
    {
      if unordered == multiset{} {
        return None;
      }
      LeastExists(unordered);
      assert forall e, f :: Compare(f, e).Greater? <==> Before(f, e);
      var e :| e in unordered && forall f :: f in unordered ==> !Compare(f, e).Greater?;
      return Some(e);
    }

    method Peek() returns (r: Option<Entry>)
      requires Valid()
      ensures r.None? <==> Contents() == multiset{}
      ensures r.Some? ==> IsLeast(r.value, Contents())
    {
      var top := HeapTop();
      if ordered != [] {
        FirstOfSorted(ordered);
        if top.Some? && Compare(top.value, ordered[0]) == Greater {
          r := top;
        } else {
          r := Some(ordered[0]);
        }
      } else {
        r := top;
      }
    }

    /** One push of one priority queue, on either path. */
    method Push(entry: Entry, immediate: bool)
      requires Valid()
      modifies this
      ensures Valid() && Contents() == old(Contents()) + multiset{entry}
    {
      if immediate && (ordered == [] || Compare(entry, ordered[|ordered| - 1]) != Greater) {
        ordered := ordered + [entry];
      } else {
        unordered := unordered + multiset{entry};
      }
    }

    /** One pop of one priority queue: the first in order leaves. */
    method Pop() returns (r: Option<Entry>)
      requires Valid()
      modifies this
      ensures Valid()
      ensures r.None? ==> old(Contents()) == multiset{} && Contents() == multiset{}
      ensures r.Some? ==> IsLeast(r.value, old(Contents()))
      ensures r.Some? ==> old(Contents()) == multiset{r.value} + Contents()
      ensures r.Some? ==> InOrder(old(Contents())) == [r.value] + InOrder(Contents())
    {
      var top := HeapTop();
      if ordered != [] && !(top.Some? && Compare(top.value, ordered[0]).Greater?) {
        r := Some(ordered[0]);
        PopOrdered();
      } else if top.Some? {
        r := top;
        PopUnordered(top.value);
      } else {
        r := None;
      }
    }

    method PopOrdered()
      requires Valid() && ordered != [] && forall f :: f in unordered ==> !Before(f, ordered[0])
      modifies this`ordered
      ensures Valid() && ordered == old(ordered)[1..]
      ensures IsLeast(old(ordered)[0], old(Contents()))
      ensures old(Contents()) == multiset{old(ordered)[0]} + Contents()
      ensures InOrder(old(Contents())) == [old(ordered)[0]] + InOrder(Contents())
    {
      FirstOfSorted(ordered);
      HeadTail(ordered);
      FirstOfBoth(multiset(ordered), unordered, ordered[0], multiset(ordered[1..]));
      ordered := ordered[1..];
    }

    method PopUnordered(top: Entry)
      requires Valid() && IsLeast(top, unordered) && (ordered != [] ==> Before(top, ordered[0]))
      modifies this`unordered
      ensures Valid() && unordered == old(unordered) - multiset{top}
      ensures IsLeast(top, old(Contents()))
      ensures old(Contents()) == multiset{top} + Contents()
      ensures InOrder(old(Contents())) == [top] + InOrder(Contents())
    {
      NothingBefore(top, ordered);
      FirstOfEither(multiset(ordered), unordered, top, unordered - multiset{top});
      unordered := unordered - multiset{top};
    }

    /** Takes the shared heap in and leaves it empty. */
    method AppendHeap(other: multiset<Entry>) returns (left: multiset<Entry>)
      requires Valid()
      modifies this
      ensures Valid() && left == multiset{} && Contents() == old(Contents()) + other
    {
      unordered := unordered + other;
      left := multiset{};
    }

    /** Gives every entry to the shared heap. */
    method DrainInto(other: multiset<Entry>) returns (joined: multiset<Entry>)
      requires Valid()
      modifies this
      ensures Valid() && Contents() == multiset{} && joined == other + old(Contents())
    {
      joined := other + unordered + multiset(ordered);
      unordered := multiset{};
      ordered := [];
    }

    /** Moves every entry that looks cancelled out, once each; the others keep
        their pop order. */
    method CompactCancelled(looks: nat -> bool) returns (moved: seq<Entry>)
      requires Valid()
      modifies this
      ensures Valid()
      ensures Contents() + multiset(moved) == old(Contents())
      ensures forall e :: e in moved ==> looks(e.id)
      ensures forall e :: e in Contents() ==> !looks(e.id)
      ensures InOrder(Contents()) == Filter(InOrder(old(Contents())), Live(looks))
    {
      var fromOrdered := RetainOrdered(looks);
      var fromHeap := RetainUnordered(looks);
      moved := fromOrdered + fromHeap;
      RemovalKeepsOrder(Contents(), multiset(moved), looks);
      assert Contents() + multiset(moved) == old(Contents());
    }

    method RetainOrdered(looks: nat -> bool) returns (moved: seq<Entry>)
      requires Valid()
      modifies this`ordered
      ensures Valid()
      ensures multiset(ordered) + multiset(moved) == multiset(old(ordered))
      ensures forall e :: e in moved ==> looks(e.id)
      ensures forall e :: e in ordered ==> !looks(e.id)
    {
      var kept: seq<Entry> := [];
      moved := [];
      for i := 0 to |ordered|
        invariant unchanged(this)
        invariant kept == Filter(ordered[..i], Live(looks))
        invariant moved == Filter(ordered[..i], Cancelled(looks))
      {
        assert ordered[..i + 1] == ordered[..i] + [ordered[i]];
        FilterConcat(ordered[..i], [ordered[i]], Live(looks));
        FilterConcat(ordered[..i], [ordered[i]], Cancelled(looks));
        if looks(ordered[i].id) {
          moved := moved + [ordered[i]];
        } else {
          kept := kept + [ordered[i]];
        }
      }
      assert ordered[..|ordered|] == ordered;
      FilterSorted(ordered, Live(looks));
      FilterPartition(ordered, looks);
      ordered := kept;
    }

    method RetainUnordered(looks: nat -> bool) returns (moved: seq<Entry>)
      modifies this`unordered
      ensures unordered + multiset(moved) == old(unordered)
      ensures forall e :: e in moved ==> looks(e.id)
      ensures forall e :: e in unordered ==> !looks(e.id)
    {
      var rest, kept := unordered, multiset{};
      moved := [];
      while rest != multiset{}
        invariant unchanged(this)
        invariant rest + kept + multiset(moved) == unordered
        invariant forall e :: e in moved ==> looks(e.id)
        invariant forall e :: e in kept ==> !looks(e.id)
        decreases |rest|
      {
        var e :| e in rest;
        rest := rest - multiset{e};
        if looks(e.id) {
          moved := moved + [e];
        } else {
          kept := kept + multiset{e};
        }
      }
      unordered := kept;
    }

    method Serve(request: Request) returns (reply: Reply)
      requires Valid()
      modifies this
      ensures Valid() && Answers(old(Contents()), request, reply) && Contents() == Next(old(Contents()), request)
    {
      match request
      case Insert(entry, immediate) =>
        Push(entry, immediate);
        reply := Done;
      case Remove =>
        var first := Pop();
        reply := Removed(first);
      case Import(other) =>
        var _ := AppendHeap(other);
        reply := Done;
      case Export(other) =>
        var joined := DrainInto(other);
        reply := Exported(joined);
      case Compact(looks) =>
        ghost var before := Contents();
        var moved := CompactCancelled(looks);
        CompactedIsNext(before, Contents(), moved, looks);
        reply := Moved(moved);
    }

    /** Every history of pushes on either path, pops, merges, drains and
        compactions is answered as one priority queue answers it. */
    method Replay(requests: seq<Request>) returns (replies: seq<Reply>)
      requires Valid()
      modifies this
      ensures Valid() && Explains(old(Contents()), requests, replies)
      ensures Contents() == Reached(old(Contents()), requests)
    {
      replies := [];
      ghost var start := Contents();
      for i := 0 to |requests|
        invariant Valid() && Explains(start, requests[..i], replies) && Contents() == Reached(start, requests[..i])
      {
        var reply := Serve(requests[i]);
        ExplainsMore(start, requests, i, replies, reply);
        replies := replies + [reply];
      }
      assert requests[..|requests|] == requests;
    }
  }

  // ----- Whole histories -----

  /** `looks` is what the cancelled flags read as. */
  datatype Request =
    | Insert(entry: Entry, immediate: bool)
    | Remove
    | Import(other: multiset<Entry>)
    | Export(other: multiset<Entry>)
    | Compact(looks: nat -> bool)

  datatype Reply = Done | Removed(first: Option<Entry>) | Exported(joined: multiset<Entry>) | Moved(moved: seq<Entry>)

  /** What one priority queue holding `m` answers. */
  ghost predicate Answers(m: multiset<Entry>, request: Request, reply: Reply) {
    match request
    case Insert(_, _) => reply.Done?
    case Remove => reply == Removed(if m == multiset{} then None else Some(Least(m)))
    case Import(_) => reply.Done?
    case Export(other) => reply == Exported(other + m)
    case Compact(looks) =>
      reply.Moved? && forall e: Entry :: multiset(reply.moved)[e] == if looks(e.id) then m[e] else 0
  }

  /** What it holds then; the path of a push plays no part. */
  ghost function Next(m: multiset<Entry>, request: Request): (m': multiset<Entry>) {
    match request
    case Insert(entry, _) => m + multiset{entry}
    case Remove => if m == multiset{} then m else m - multiset{Least(m)}
    case Import(other) => m + other
    case Export(_) => multiset{}
    case Compact(looks) => multiset(Filter(InOrder(m), Live(looks)))
  }

  ghost function Reached(m: multiset<Entry>, requests: seq<Request>): (m': multiset<Entry>) {
    if requests == [] then m
    else Next(Reached(m, requests[..|requests| - 1]), requests[|requests| - 1])
  }

  ghost predicate Explains(m: multiset<Entry>, requests: seq<Request>, replies: seq<Reply>) {
    && |requests| == |replies|
    && (requests == [] ||
        var last := |requests| - 1;
        && Explains(m, requests[..last], replies[..last])
        && Answers(Reached(m, requests[..last]), requests[last], replies[last]))
  }

  lemma ExplainsMore(m: multiset<Entry>, requests: seq<Request>, k: nat, replies: seq<Reply>, reply: Reply)
    requires k < |requests| && Explains(m, requests[..k], replies)
    requires Answers(Reached(m, requests[..k]), requests[k], reply)
    ensures Explains(m, requests[..k + 1], replies + [reply])
    ensures Reached(m, requests[..k + 1]) == Next(Reached(m, requests[..k]), requests[k])
  {
    assert requests[..k + 1][..k] == requests[..k];
    assert (replies + [reply])[..k] == replies;
  }

  lemma CompactedIsNext(before: multiset<Entry>, after: multiset<Entry>, moved: seq<Entry>, looks: nat -> bool)
    requires after + multiset(moved) == before
    requires forall e :: e in moved ==> looks(e.id)
    requires forall e :: e in after ==> !looks(e.id)
    ensures Answers(before, Compact(looks), Moved(moved)) && after == Next(before, Compact(looks))
  {
    InOrderIsSorted(before);
    forall e: Entry
      ensures multiset(moved)[e] == if looks(e.id) then before[e] else 0
      ensures multiset(Filter(InOrder(before), Live(looks)))[e] == after[e]
    {
      FilterMembers(InOrder(before), Live(looks), e);
      assert before[e] == after[e] + multiset(moved)[e];
      assert e in multiset(moved) <==> e in moved;
    }
  }

  predicate AllBefore(s: seq<Entry>, m: multiset<Entry>) {
    forall e, f :: e in s && f in m ==> !Before(f, e)
  }

  lemma AppendDue(due: seq<Entry>, before: multiset<Entry>, e: Entry, rest: multiset<Entry>)
    requires Sorted(due) && AllBefore(due, before) && IsLeast(e, before) && before == multiset{e} + rest
    ensures Sorted(due + [e]) && AllBefore(due + [e], rest)
    ensures multiset(due + [e]) + rest == multiset(due) + before
  {
  }

  /** The queue of a run and the shared heap other threads push to. */
  class LocalTimers {
    const heap: TimerQueue
    var pending: multiset<Entry>
    var dirty: bool

    constructor (pending: multiset<Entry>, dirty: bool)
      ensures heap.Valid() && heap.Contents() == multiset{} && fresh(heap)
      ensures this.pending == pending && this.dirty == dirty
    {
      heap := new TimerQueue();
      this.pending := pending;
      this.dirty := dirty;
    }

    /** What the collection can see: the shared heap only once it is dirty. */
    ghost function Visible(): (m: multiset<Entry>) reads this, heap {
      heap.Contents() + (if dirty then pending else multiset{})
    }

    /** Collects at clock value `now`. `first` and `later` give the cancelled
        flag of each timer as the compaction and the collection loop read it;
        a flag once set stays set. Nothing is lost, nothing due stays behind,
        and the timers that did not look cancelled are exactly the due ones
        in (deadline, id) order. */
    method Collect(counter: nat, now: int, first: nat -> bool, later: nat -> bool)
      returns (handed: seq<Entry>)
      requires heap.Valid()
      requires forall id :: first(id) ==> later(id)
      modifies this, heap
      ensures heap.Valid() && !dirty
      ensures pending == if old(dirty) then multiset{} else old(pending)
      ensures multiset(handed) + heap.Contents() == old(Visible())
      ensures forall e :: e in handed ==> e.when <= now || later(e.id)
      ensures forall e :: e in heap.Contents() ==> e.when > now
      ensures Filter(handed, Live(later)) == Filter(InOrder(old(Visible())), LiveAndDue(now, later))
    {
      Import();
      var moved := Compact(counter, first);
      var empty := heap.IsEmpty();
      var due: seq<Entry> := [];
      if !empty {
        due := CollectDue(now, later);
      }
      HandedInOrder(moved, due, heap.Contents(), old(Visible()), now, later);
      handed := moved + due;
    }

    /** Takes in what other threads pushed, if they marked it. */
    method Import()
      requires heap.Valid()
      modifies this, heap
      ensures heap.Valid() && !dirty
      ensures pending == if old(dirty) then multiset{} else old(pending)
      ensures heap.Contents() == old(Visible())
    {
      if dirty {
        dirty := false;
        pending := heap.AppendHeap(pending);
      }
    }

    /** Compacts once the counter passes 100 and half of the entries. */
    method Compact(counter: nat, first: nat -> bool) returns (moved: seq<Entry>)
      requires heap.Valid()
      modifies heap
      ensures heap.Valid()
      ensures multiset(moved) + heap.Contents() == old(heap.Contents())
      ensures forall e :: e in moved ==> first(e.id)
      ensures moved != [] ==> counter > 100 && counter > |old(heap.Contents())| / 2
      ensures counter > 100 && counter > |old(heap.Contents())| / 2 ==>
                forall e :: e in heap.Contents() ==> !first(e.id)
    {
      var size := |heap.ordered| + |heap.unordered|;
      moved := [];
      if counter > 100 && counter > size / 2 {
        moved := heap.CompactCancelled(first);
      }
    }

    /** The collection loop: pops while the first is due or looks cancelled. */
    method CollectDue(now: int, later: nat -> bool) returns (due: seq<Entry>)
      requires heap.Valid()
      modifies heap
      ensures heap.Valid()
      ensures multiset(due) + heap.Contents() == old(heap.Contents())
      ensures Sorted(due)
      ensures forall e :: e in due ==> e.when <= now || later(e.id)
      ensures forall e :: e in heap.Contents() ==> e.when > now
    {
      due := [];
      var head := heap.Peek();
      while head.Some? && (head.value.when <= now || later(head.value.id))
        invariant heap.Valid()
        invariant head.None? <==> heap.Contents() == multiset{}
        invariant head.Some? ==> IsLeast(head.value, heap.Contents())
        invariant multiset(due) + heap.Contents() == old(heap.Contents())
        invariant Sorted(due) && AllBefore(due, heap.Contents())
        invariant forall e :: e in due ==> e.when <= now || later(e.id)
        decreases |heap.Contents()|
      {
        ghost var before := heap.Contents();
        var e := heap.Pop();
        LeastIsUnique(e.value, head.value, before);
        AppendDue(due, before, e.value, heap.Contents());
        due := due + [e.value];
        head := heap.Peek();
      }
    }

    /** Until when the park may last: the next deadline, and at most the interval
        at which signals are polled. */
    method Deadline(now: int) returns (until: int)
      requires heap.Valid()
      ensures until <= now + SIGNAL_POLL_INTERVAL
      ensures forall e :: e in heap.Contents() ==> until <= e.when
      ensures until == now + SIGNAL_POLL_INTERVAL || exists e :: e in heap.Contents() && e.when == until
    {
      until := now + SIGNAL_POLL_INTERVAL;
      var first := heap.Peek();
      if first.Some? {
        if first.value.when < until {
          until := first.value.when;
        }
      }
    }

    /** On the way out of a run the queue goes back to the shared heap. */
    method Return()
      requires heap.Valid()
      modifies this, heap
      ensures heap.Valid() && heap.Contents() == multiset{}
      ensures pending == old(pending) + old(heap.Contents())
      ensures dirty == (old(dirty) || old(heap.Contents()) != multiset{})
    {
      var empty := heap.IsEmpty();
      if !empty {
        pending := heap.DrainInto(pending);
        dirty := true;
      }
    }
  }

  /** What compaction moved and what the loop popped, seen together. */
  lemma HandedInOrder(moved: seq<Entry>, due: seq<Entry>, rest: multiset<Entry>, all: multiset<Entry>,
                      now: int, later: nat -> bool)
    requires multiset(moved) + (multiset(due) + rest) == all
    requires forall e :: e in moved ==> later(e.id)
    requires Sorted(due) && forall e :: e in due ==> e.when <= now || later(e.id)
    requires forall e :: e in rest ==> e.when > now
    ensures multiset(moved + due) + rest == all
    ensures Filter(moved + due, Live(later)) == Filter(InOrder(all), LiveAndDue(now, later))
  {
    FilterConcat(moved, due, Live(later));
    FilterNone(moved, Live(later));
    FilterAgree(due, Live(later), LiveAndDue(now, later));
    SortedFilter(due, multiset(moved) + rest, LiveAndDue(now, later));
    assert multiset(due) + (multiset(moved) + rest) == all;
  }
}
