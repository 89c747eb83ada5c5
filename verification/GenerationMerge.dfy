/** The off-thread ready queue with run-length-compressed marks, and the merge
    that starts a ready generation (src/engine/commands.rs and
    `merge_ready_generation` in src/engine/loop_core.rs).

    A mark is the number of loop-thread enqueues that had happened when an
    off-thread item was queued. The specification works on one mark per item;
    the code stores a mark only where it changes. */
module GenerationMerge {
  import opened Sequences

  /** An off-thread item with its own mark. */
  datatype Marked<T> = Marked(item: T, mark: nat)

  /** How many of `available` local items go ahead of an item with this mark,
      when the first `taken` loop-thread enqueues are already merged. */
  function Due(mark: nat, taken: nat, available: nat): (due: nat) {
    var wanted := if mark > taken then mark - taken else 0;
    if wanted < available then wanted else available
  }

  /** The merge on one mark per item, one item at a time: an off-thread item
      waits until `mark` loop-thread enqueues are out, or none is left. */
  function Merge<T>(local: seq<T>, taken: nat, pending: seq<Marked<T>>): (batch: seq<T>)
    decreases |local| + |pending|
  {
    if pending == [] then local
    else if local != [] && taken < pending[0].mark then
      [local[0]] + Merge(local[1..], taken + 1, pending)
    else
      [pending[0].item] + Merge(local, taken, pending[1..])
  }

  function Items<T>(pending: seq<Marked<T>>): (items: seq<T>) {
    seq(|pending|, i requires 0 <= i < |pending| => pending[i].item)
  }

  /** The largest mark among the first `k + 1` items. */
  function RunningMax<T>(pending: seq<Marked<T>>, k: nat): (m: nat)
    requires k < |pending|
    ensures forall i :: 0 <= i <= k ==> pending[i].mark <= m
    ensures exists i :: 0 <= i <= k && pending[i].mark == m
  {
    if k == 0 then pending[0].mark
    else
      var m := RunningMax(pending, k - 1);
      if m < pending[k].mark then pending[k].mark else m
  }

  /** How many local items item `k` follows: the marks need not grow along the
      queue, so the running maximum decides. */
  function Ahead<T>(local: seq<T>, taken: nat, pending: seq<Marked<T>>, k: nat): (n: nat)
    requires k < |pending|
  {
    Due(RunningMax(pending, k), taken, |local|)
  }

  lemma {:induction false} RunningMaxTail<T>(pending: seq<Marked<T>>, k: nat)
    requires 0 < k < |pending|
    ensures RunningMax(pending, k)
         == var rest := RunningMax(pending[1..], k - 1);
            if rest < pending[0].mark then pending[0].mark else rest
  {
    if k > 1 {
      RunningMaxTail(pending, k - 1);
    }
  }

  lemma {:induction false} MergeLength<T>(local: seq<T>, taken: nat, pending: seq<Marked<T>>)
    ensures |Merge(local, taken, pending)| == |local| + |pending|
    decreases |local| + |pending|
  {
    if pending == [] {
    } else if local != [] && taken < pending[0].mark {
      MergeLength(local[1..], taken + 1, pending);
    } else {
      MergeLength(local, taken, pending[1..]);
    }
  }

  /** Item `k` comes out behind exactly the first `ahead` local items: what
      precedes it is the merge of the two prefixes. */
  ghost predicate Placed<T>(local: seq<T>, taken: nat, pending: seq<Marked<T>>, k: nat, ahead: nat) {
    && k < |pending|
    && ahead <= |local|
    && |Merge(local, taken, pending)| == |local| + |pending|
    && Merge(local, taken, pending)[k + ahead] == pending[k].item
    && Merge(local, taken, pending)[..k + ahead] == Merge(local[..ahead], taken, pending[..k])
  }

  /** Off-thread item `k` follows exactly `Ahead(k)` local items. */
  lemma {:induction false} MergePlacement<T>(local: seq<T>, taken: nat, pending: seq<Marked<T>>, k: nat)
    requires k < |pending|
    ensures Placed(local, taken, pending, k, Ahead(local, taken, pending, k))
    decreases |local| + |pending|
  {
    if local != [] && taken < pending[0].mark {
      MergePlacement(local[1..], taken + 1, pending, k);
      assert Ahead(local[1..], taken + 1, pending, k) == Ahead(local, taken, pending, k) - 1;
      PlacementBehindLocal(local, taken, pending, k, Ahead(local, taken, pending, k));
    } else if k == 0 {
      PlacementFirst(local, taken, pending);
    } else {
      RunningMaxTail(pending, k);
      MergePlacement(local, taken, pending[1..], k - 1);
      assert Ahead(local, taken, pending[1..], k - 1) == Ahead(local, taken, pending, k);
      PlacementBehindItem(local, taken, pending, k, Ahead(local, taken, pending, k));
    }
  }

  lemma PlacementFirst<T>(local: seq<T>, taken: nat, pending: seq<Marked<T>>)
    requires pending != [] && (local == [] || pending[0].mark <= taken)
    ensures Placed(local, taken, pending, 0, 0)
  {
    MergeLength(local, taken, pending);
    assert pending[..0] == [] && local[..0] == [];
  }

  lemma PlacementBehindLocal<T>(local: seq<T>, taken: nat, pending: seq<Marked<T>>, k: nat, ahead: nat)
    requires k < |pending| && local != [] && taken < pending[0].mark && 0 < ahead
    requires Placed(local[1..], taken + 1, pending, k, ahead - 1)
    ensures Placed(local, taken, pending, k, ahead)
  {
    var sub := Merge(local[1..], taken + 1, pending);
    assert ([local[0]] + sub)[..k + ahead] == [local[0]] + sub[..k + ahead - 1];
    assert local[..ahead][1..] == local[1..][..ahead - 1];
    if k == 0 {
      assert pending[..k] == [];
      assert [local[0]] + local[1..][..ahead - 1] == local[..ahead];
    }
  }

  lemma PlacementBehindItem<T>(local: seq<T>, taken: nat, pending: seq<Marked<T>>, k: nat, ahead: nat)
    requires 0 < k < |pending| && (local == [] || pending[0].mark <= taken)
    requires Placed(local, taken, pending[1..], k - 1, ahead)
    ensures Placed(local, taken, pending, k, ahead)
  {
    var sub := Merge(local, taken, pending[1..]);
    assert ([pending[0].item] + sub)[..k + ahead] == [pending[0].item] + sub[..k + ahead - 1];
    assert pending[..k][1..] == pending[1..][..k - 1];
  }

  /** If `p` rejects every local item, the merge shows `p` just the off-thread
      queue, in its order. */
  lemma {:induction false} MergeFilterPending<T>(p: T -> bool, local: seq<T>, taken: nat, pending: seq<Marked<T>>)
    requires forall x :: x in local ==> !p(x)
    ensures Filter(Merge(local, taken, pending), p) == Filter(Items(pending), p)
    decreases |local| + |pending|
  {
    if pending == [] {
      FilterNone(local, p);
      assert Items(pending) == [];
    } else if local != [] && taken < pending[0].mark {
      MergeFilterPending(p, local[1..], taken + 1, pending);
    } else {
      MergeFilterPending(p, local, taken, pending[1..]);
      assert Items(pending)[1..] == Items(pending[1..]);
    }
  }

  /** If `p` accepts every local item and rejects every off-thread one, the
      merge shows `p` just the local queue, in its order. */
  lemma {:induction false} MergeFilterLocal<T>(p: T -> bool, local: seq<T>, taken: nat, pending: seq<Marked<T>>)
    requires forall x :: x in local ==> p(x)
    requires forall i :: 0 <= i < |pending| ==> !p(pending[i].item)
    ensures Filter(Merge(local, taken, pending), p) == local
    decreases |local| + |pending|
  {
    if pending == [] {
      FilterAll(local, p);
    } else if local != [] && taken < pending[0].mark {
      MergeFilterLocal(p, local[1..], taken + 1, pending);
    } else {
      MergeFilterLocal(p, local, taken, pending[1..]);
    }
  }

  /** Nothing is lost and nothing appears twice. */
  lemma {:induction false} MergeConserves<T>(local: seq<T>, taken: nat, pending: seq<Marked<T>>)
    ensures multiset(Merge(local, taken, pending)) == multiset(local) + multiset(Items(pending))
    decreases |local| + |pending|
  {
    if pending == [] {
      assert Items(pending) == [];
    } else if local != [] && taken < pending[0].mark {
      var rest := Merge(local[1..], taken + 1, pending);
      MergeConserves(local[1..], taken + 1, pending);
      assert local == [local[0]] + local[1..];
      MultisetFront(local[0], local[1..], Items(pending), rest);
    } else {
      var rest := Merge(local, taken, pending[1..]);
      MergeConserves(local, taken, pending[1..]);
      assert Items(pending) == [pending[0].item] + Items(pending[1..]);
      MultisetFront(pending[0].item, Items(pending[1..]), local, rest);
    }
  }

  lemma MultisetFront<T>(x: T, a: seq<T>, b: seq<T>, ab: seq<T>)
    requires multiset(ab) == multiset(a) + multiset(b)
    ensures multiset([x] + ab) == multiset([x] + a) + multiset(b) == multiset(b) + multiset([x] + a)
  {
    MultisetCons(x, a);
    MultisetCons(x, ab);
  }

  lemma MultisetCons<T>(x: T, s: seq<T>)
    ensures multiset([x] + s) == multiset{x} + multiset(s)
  {
    assert multiset([x]) == multiset{x};
  }

  lemma {:induction false} MergeNoLocal<T>(taken: nat, pending: seq<Marked<T>>)
    ensures Merge([], taken, pending) == Items(pending)
    decreases |pending|
  {
    if pending != [] {
      MergeNoLocal(taken, pending[1..]);
      assert Items(pending) == [pending[0].item] + Items(pending[1..]);
    }
  }

  /** The local items due ahead of the next off-thread item move as a block. */
  lemma Prefixed<T>(s: seq<T>, n: nat, rest: seq<T>)
    requires 0 < n <= |s|
    ensures [s[0]] + (s[1..][..n - 1] + rest) == s[..n] + rest
  {
    assert [s[0]] + s[1..][..n - 1] == s[..n];
  }

  lemma {:induction false} MergeDueLocals<T>(local: seq<T>, taken: nat, pending: seq<Marked<T>>)
    requires pending != []
    ensures var due := Due(pending[0].mark, taken, |local|);
            Merge(local, taken, pending) == local[..due] + Merge(local[due..], taken + due, pending)
    decreases |local|
  {
    var due := Due(pending[0].mark, taken, |local|);
    if due == 0 {
      assert local[0..] == local;
    } else {
      MergeDueLocals(local[1..], taken + 1, pending);
      var rest := Merge(local[1..][due - 1..], taken + 1 + (due - 1), pending);
      assert Merge(local, taken, pending) == [local[0]] + (local[1..][..due - 1] + rest);
      Prefixed(local, due, rest);
      assert local[1..][due - 1..] == local[due..];
    }
  }

  /** A stretch of items whose marks are reached moves as a block. */
  lemma {:induction false} MergeReachedItems<T>(local: seq<T>, taken: nat, segment: seq<Marked<T>>,
                                                rest: seq<Marked<T>>)
    requires local == [] || forall i :: 0 <= i < |segment| ==> segment[i].mark <= taken
    ensures Merge(local, taken, segment + rest) == Items(segment) + Merge(local, taken, rest)
    decreases |segment|
  {
    if segment == [] {
      assert segment + rest == rest;
      assert Items(segment) == [];
    } else {
      MergeReachedItems(local, taken, segment[1..], rest);
      assert (segment + rest)[1..] == segment[1..] + rest;
      assert Items(segment) == [segment[0].item] + Items(segment[1..]);
    }
  }

  /** A stretch of items with one mark, behind the local items due. */
  lemma MergeSegment<T>(local: seq<T>, taken: nat, segment: seq<Marked<T>>, rest: seq<Marked<T>>, mark: nat)
    requires segment != []
    requires forall i :: 0 <= i < |segment| ==> segment[i].mark == mark
    ensures var due := Due(mark, taken, |local|);
            Merge(local, taken, segment + rest)
            == local[..due] + (Items(segment) + Merge(local[due..], taken + due, rest))
  {
    var due := Due(mark, taken, |local|);
    MergeDueLocals(local, taken, segment + rest);
    MergeReachedItems(local[due..], taken + due, segment, rest);
  }

  function MarkAll<T>(items: seq<T>, mark: nat): (marked: seq<Marked<T>>)
    ensures |marked| == |items| && Items(marked) == items
  {
    seq(|items|, i requires 0 <= i < |items| => Marked(items[i], mark))
  }

  /** Marks as `(index, mark)` pairs: starts grow strictly and stay inside the
      queue, and neighbours differ. */
  ghost predicate Compressed(marks: seq<(nat, nat)>, len: nat) {
    && (forall i :: 0 <= i < |marks| ==> marks[i].0 < len)
    && (forall i, j :: 0 <= i < j < |marks| ==> marks[i].0 < marks[j].0)
    && (forall i, j :: 0 <= i && j == i + 1 && j < |marks| ==> marks[i].1 != marks[j].1)
  }

  /** The mark that applies to index `i`: the last one starting at or before
      it. Leftovers of a run stand ahead of every mark and count from 0. */
  ghost function MarkAt(marks: seq<(nat, nat)>, i: nat): (m: nat) {
    if marks == [] then 0
    else
      var last := marks[|marks| - 1];
      if last.0 <= i then last.1 else MarkAt(marks[..|marks| - 1], i)
  }

  lemma {:induction false} MarkAtSegment(marks: seq<(nat, nat)>, len: nat, s: nat, i: nat)
    requires Compressed(marks, len) && marks != [] && marks[0].0 == 0
    requires s < |marks| && marks[s].0 <= i
    requires s + 1 < |marks| ==> i < marks[s + 1].0
    ensures MarkAt(marks, i) == marks[s].1
    decreases |marks|
  {
    if s + 1 < |marks| {
      var shorter := marks[..|marks| - 1];
      assert s + 1 < |shorter| ==> shorter[s + 1] == marks[s + 1];
      assert marks[s + 1].0 <= marks[|marks| - 1].0;
      MarkAtSegment(shorter, len, s, i);
    }
  }

  /** The queue with one mark per item. */
  ghost function Uncompressed<T>(items: seq<T>, marks: seq<(nat, nat)>): (s: seq<Marked<T>>)
    ensures |s| == |items| && Items(s) == items
  {
    seq(|items|, i requires 0 <= i < |items| => Marked(items[i], MarkAt(marks, i)))
  }

  class PendingReady<T> {
    var items: seq<T>
    var marks: seq<(nat, nat)>

    ghost predicate Valid()
      reads this
    {
      Compressed(marks, |items|)
    }

    /** Every item has a mark of its own: so until leftovers are put back. */
    ghost predicate Covered()
      reads this
    {
      items != [] ==> marks != [] && marks[0].0 == 0
    }

    ghost function Contents(): (s: seq<Marked<T>>)
      reads this
      ensures |s| == |items| && Items(s) == items
    {
      Uncompressed(items, marks)
    }

    constructor ()
      ensures Valid() && Covered() && items == [] && marks == [] && Contents() == []
    {
      items, marks := [], [];
    }

    /** Records the mark for the items queued next, if it changed. */
    method Mark(localMark: nat)
      modifies this`marks
      ensures Extended(old(marks), marks, |items|, localMark)
    {
      if marks == [] || marks[|marks| - 1].1 != localMark {
        marks := marks + [(|items|, localMark)];
      }
    }

    method Push(item: T, localMark: nat)
      requires Valid()
      modifies this
      ensures Valid() && (old(Covered()) ==> Covered())
      ensures Contents() == old(Contents()) + [Marked(item, localMark)]
    {
      ghost var before, queued := marks, items;
      Mark(localMark);
      items := items + [item];
      ContentsExtended(queued, before, [item], marks, localMark);
    }

    method Extend(more: seq<T>, localMark: nat)
      requires Valid()
      modifies this
      ensures Valid() && (old(Covered()) ==> Covered())
      ensures Contents() == old(Contents()) + MarkAll(more, localMark)
    {
      var len, marked := |items|, |marks|;
      ghost var before, queued := marks, items;
      Mark(localMark);
      items := items + more;
      if |items| == len {
        marks := marks[..marked];
        assert marks == before && items == queued;
      } else {
        ContentsExtended(queued, before, more, marks, localMark);
      }
    }

    method TakeItems() returns (taken: seq<T>)
      modifies this
      ensures taken == old(items) && items == [] && marks == [] && Valid() && Covered()
    {
      marks := [];
      taken := items;
      items := [];
    }

    /** Puts the leftovers of a run into the queue its last merge emptied. */
    method PutBack(leftovers: seq<T>)
      requires Valid() && items == []
      modifies this
      ensures Valid() && Contents() == MarkAll(leftovers, 0)
    {
      assert marks == [] by {
        assert marks != [] ==> marks[0].0 < 0;
      }
      items := leftovers;
    }
  }

  lemma ContentsExtended<T>(items: seq<T>, before: seq<(nat, nat)>, more: seq<T>, after: seq<(nat, nat)>, mark: nat)
    requires Compressed(before, |items|) && more != [] && Extended(before, after, |items|, mark)
    ensures Compressed(after, |items + more|) && after != []
    ensures (items != [] ==> before != [] && before[0].0 == 0) ==> after[0].0 == 0
    ensures Uncompressed(items + more, after) == Uncompressed(items, before) + MarkAll(more, mark)
  {
    MarksExtended(before, after, |items|, |items + more|, mark);
  }

  /** Appending items under `mark` keeps the compression valid, keeps every old
      mark, and gives every new index `mark`. */
  lemma {:induction false} MarksExtended(before: seq<(nat, nat)>, after: seq<(nat, nat)>, len: nat, len': nat,
                                         mark: nat)
    requires Compressed(before, len) && len < len' && Extended(before, after, len, mark)
    ensures Compressed(after, len') && after != []
    ensures (len > 0 ==> before != [] && before[0].0 == 0) ==> after[0].0 == 0
    ensures forall i: nat :: i < len' ==> MarkAt(after, i) == if i < len then MarkAt(before, i) else mark
  {
    forall i: nat | i < len'
      ensures MarkAt(after, i) == if i < len then MarkAt(before, i) else mark
    {
      MarkExtendedAt(before, after, len, mark, i);
    }
  }

  /** The mark list after `mark` was noted at index `len`. */
  predicate Extended(before: seq<(nat, nat)>, after: seq<(nat, nat)>, len: nat, mark: nat) {
    after == if before == [] || before[|before| - 1].1 != mark then before + [(len, mark)] else before
  }

  lemma {:induction false} MarkExtendedAt(before: seq<(nat, nat)>, after: seq<(nat, nat)>, len: nat, mark: nat, i: nat)
    requires Compressed(before, len) && Extended(before, after, len, mark)
    ensures MarkAt(after, i) == if i < len then MarkAt(before, i) else mark
  {
    if after != before {
      assert after[..|after| - 1] == before;
    }
  }

  /** Where segment `s` ends. */
  function SegmentEnd(marks: seq<(nat, nat)>, len: nat, s: nat): (end: nat)
    requires s < |marks|
  {
    if s + 1 < |marks| then marks[s + 1].0 else len
  }

  /** Every item of segment `s` carries the segment's mark. */
  ghost predicate OneMark<T>(contents: seq<Marked<T>>, marks: seq<(nat, nat)>, s: nat) {
    && s < |marks|
    && marks[s].0 < SegmentEnd(marks, |contents|, s) <= |contents|
    && forall i :: marks[s].0 <= i < SegmentEnd(marks, |contents|, s) ==> contents[i].mark == marks[s].1
  }

  lemma {:induction false} SegmentsHaveOneMark<T>(contents: seq<Marked<T>>, marks: seq<(nat, nat)>)
    requires Compressed(marks, |contents|) && marks != [] && marks[0].0 == 0
    requires forall i: nat :: i < |contents| ==> contents[i].mark == MarkAt(marks, i)
    ensures forall s: nat :: s < |marks| ==> OneMark(contents, marks, s)
  {
    forall s: nat | s < |marks| ensures OneMark(contents, marks, s) {
      forall i | marks[s].0 <= i < SegmentEnd(marks, |contents|, s) ensures contents[i].mark == marks[s].1 {
        MarkAtSegment(marks, |contents|, s, i);
      }
    }
  }

  /** What the merge loop still has to move before segment `index`. */
  ghost predicate Remaining<T>(contents: seq<Marked<T>>, marks: seq<(nat, nat)>, index: nat, items: seq<T>,
                               todo: seq<Marked<T>>) {
    if index < |marks| then
      && OneMark(contents, marks, index)
      && items == Items(contents)[marks[index].0..] && todo == contents[marks[index].0..]
    else items == [] && todo == []
  }

  lemma RemainingNext<T>(contents: seq<Marked<T>>, marks: seq<(nat, nat)>, index: nat, items: seq<T>, len: nat)
    requires forall s: nat :: s < |marks| ==> OneMark(contents, marks, s)
    requires OneMark(contents, marks, index) && items == Items(contents)[marks[index].0..]
    requires len == SegmentEnd(marks, |contents|, index) - marks[index].0
    ensures len <= |items| && items[..len] == Items(contents)[marks[index].0..marks[index].0 + len]
    ensures Remaining(contents, marks, index + 1, items[len..], contents[marks[index].0 + len..])
  {
    var end := marks[index].0 + len;
    assert items[len..] == Items(contents)[end..];
    assert index + 1 < |marks| ==> OneMark(contents, marks, index + 1);
  }

  /** What one pass of the merge loop does: it moves the local items due ahead
      of the segment, then the segment. */
  lemma MergePass<T>(batch: seq<T>, local: seq<T>, taken: nat, contents: seq<Marked<T>>, marks: seq<(nat, nat)>, s: nat,
                     due: nat, items: seq<T>, rest: seq<Marked<T>>)
    requires OneMark(contents, marks, s) && due == Due(marks[s].1, taken, |local|)
    requires items == Items(contents)[marks[s].0..SegmentEnd(marks, |contents|, s)]
    requires rest == contents[SegmentEnd(marks, |contents|, s)..]
    ensures batch + Merge(local, taken, contents[marks[s].0..])
            == batch + local[..due] + items + Merge(local[due..], taken + due, rest)
  {
    var (start, mark) := marks[s];
    var segment := contents[start..SegmentEnd(marks, |contents|, s)];
    assert contents[start..] == segment + rest;
    MergeSegment(local, taken, segment, rest, mark);
    assert Items(segment) == items;
    Regroup(batch, local[..due], items, Merge(local[due..], taken + due, rest));
  }

  /** Starts the next generation: drains both queues segment by segment. */
  method MergeReadyGeneration<T>(local: seq<T>, localTaken: nat, pending: PendingReady<T>)
    returns (batch: seq<T>, local': seq<T>, localTaken': nat)
    requires pending.Valid() && pending.Covered()
    modifies pending
    ensures batch == Merge(local, localTaken, old(pending.Contents()))
    ensures local' == [] && localTaken' == localTaken + |local|
    ensures pending.Valid() && pending.Covered() && pending.items == [] && pending.marks == []
  {
    ghost var contents := pending.Contents();
    batch, local', localTaken' := [], local, localTaken;
    if pending.items == [] {
      localTaken' := localTaken' + |local'|;
      batch, local' := local', batch;
      pending.marks := [];
    } else if local' == [] {
      MergeNoLocal(localTaken, contents);
      batch, pending.items := pending.items, batch;
      pending.marks := [];
    } else {
      batch, localTaken' := MergeSegments(local', localTaken', pending, contents);
      local' := [];
    }
  }

  /** The batch so far, followed by the merge of what is left, is the whole. */
  ghost predicate Progress<T>(batch: seq<T>, local: seq<T>, taken: nat, todo: seq<Marked<T>>, whole: seq<T>) {
    batch + Merge(local, taken, todo) == whole
  }

  /** The segment loop of the merge, once both queues hold something. */
  method MergeSegments<T>(local: seq<T>, localTaken: nat, pending: PendingReady<T>, ghost contents: seq<Marked<T>>)
    returns (batch: seq<T>, localTaken': nat)
    requires pending.Valid() && pending.Covered() && pending.items != [] && contents == pending.Contents()
    modifies pending
    ensures batch == Merge(local, localTaken, contents)
    ensures localTaken' == localTaken + |local|
    ensures pending.Valid() && pending.Covered() && pending.items == [] && pending.marks == []
  {
    var local' := local;
    batch, localTaken' := [], localTaken;
    var index := 0;
    ghost var marks, todo, whole := pending.marks, contents, Merge(local, localTaken, contents);
    SegmentsHaveOneMark(contents, marks);
    while index < |pending.marks|
      invariant pending.marks == marks && 0 <= index <= |marks|
      invariant Remaining(contents, marks, index, pending.items, todo)
      invariant localTaken' + |local'| == localTaken + |local|
      invariant Progress(batch, local', localTaken', todo, whole)
    {
      batch, local', localTaken', todo := MergeOne(batch, local', localTaken', pending, index, contents, whole);
      index := index + 1;
    }
    pending.marks := [];
    localTaken' := localTaken' + |local'|;
    batch := batch + local';
  }

  /** One pass of the loop: the local items due, then one segment. */
  method MergeOne<T>(batch: seq<T>, local: seq<T>, taken: nat, pending: PendingReady<T>, index: nat,
                     ghost contents: seq<Marked<T>>, ghost whole: seq<T>)
    returns (batch': seq<T>, local': seq<T>, taken': nat, ghost todo: seq<Marked<T>>)
    requires forall s: nat :: s < |pending.marks| ==> OneMark(contents, pending.marks, s)
    requires index < |pending.marks| && OneMark(contents, pending.marks, index)
    requires Remaining(contents, pending.marks, index, pending.items, contents[pending.marks[index].0..])
    requires Progress(batch, local, taken, contents[pending.marks[index].0..], whole)
    modifies pending`items
    ensures Remaining(contents, pending.marks, index + 1, pending.items, todo)
    ensures taken' + |local'| == taken + |local| && Progress(batch', local', taken', todo, whole)
  {
    var (start, mark) := pending.marks[index];
    var len := if index + 1 < |pending.marks| then pending.marks[index + 1].0 - start else |pending.items|;
    var due := Due(mark, taken, |local|);
    RemainingNext(contents, pending.marks, index, pending.items, len);
    var segment := pending.items[..len];
    todo := contents[start + len..];
    MergePass(batch, local, taken, contents, pending.marks, index, due, segment, todo);
    batch' := batch + local[..due];
    local', taken' := local[due..], taken + due;
    batch' := batch' + segment;
    pending.items := pending.items[len..];
  }
}
