/** Filtering and regrouping of sequences. */
module Sequences {

  function Filter<T>(s: seq<T>, keep: T -> bool): (r: seq<T>) {
    if s == [] then []
    else if keep(s[0]) then [s[0]] + Filter(s[1..], keep)
    else Filter(s[1..], keep)
  }

  lemma {:induction false} FilterMembers<T>(s: seq<T>, keep: T -> bool, x: T)
    ensures multiset(Filter(s, keep))[x] == if keep(x) then multiset(s)[x] else 0
  {
    if s != [] {
      assert s == [s[0]] + s[1..];
      FilterMembers(s[1..], keep, x);
    }
  }

  lemma {:induction false} FilterConcat<T>(s: seq<T>, t: seq<T>, keep: T -> bool)
    ensures Filter(s + t, keep) == Filter(s, keep) + Filter(t, keep)
  {
    if s == [] {
      assert s + t == t;
    } else {
      assert (s + t)[1..] == s[1..] + t;
      FilterConcat(s[1..], t, keep);
      Reassociate([s[0]], Filter(s[1..], keep), Filter(t, keep));
    }
  }

  lemma {:induction false} FilterNone<T>(s: seq<T>, keep: T -> bool)
    requires forall x :: x in s ==> !keep(x)
    ensures Filter(s, keep) == []
  {
    if s != [] {
      FilterNone(s[1..], keep);
    }
  }

  lemma {:induction false} FilterAll<T>(s: seq<T>, keep: T -> bool)
    requires forall x :: x in s ==> keep(x)
    ensures Filter(s, keep) == s
  {
    if s != [] {
      assert s == [s[0]] + s[1..];
      FilterAll(s[1..], keep);
    }
  }

  lemma {:induction false} FilterAgree<T>(s: seq<T>, keep: T -> bool, other: T -> bool)
    requires forall x :: x in s ==> keep(x) == other(x)
    ensures Filter(s, keep) == Filter(s, other)
  {
    if s != [] {
      FilterAgree(s[1..], keep, other);
    }
  }

  /** Filtering twice keeps what passes both. */
  lemma {:induction false} FilterTwice<T>(s: seq<T>, keep: T -> bool, other: T -> bool, both: T -> bool)
    requires forall x :: x in s ==> (both(x) <==> keep(x) && other(x))
    ensures Filter(Filter(s, keep), other) == Filter(s, both)
  {
    if s != [] {
      FilterTwice(s[1..], keep, other, both);
      assert s[0] in s;
      if keep(s[0]) {
        FilterConcat([s[0]], Filter(s[1..], keep), other);
        assert Filter([s[0]], other) == if other(s[0]) then [s[0]] else [];
      }
    }
  }

  lemma Reassociate<T>(a: seq<T>, b: seq<T>, c: seq<T>)
    ensures (a + b) + c == a + (b + c)
  {
  }

  /** Two pieces in front of the rest, however they are put there. */
  lemma Regroup<T>(a: seq<T>, b: seq<T>, c: seq<T>, d: seq<T>)
    ensures a + (b + (c + d)) == a + b + c + d
    ensures a + ((b + c) + d) == (a + b) + (c + d)
  {
  }

  /** Two stretches of a first-in first-out queue. */
  lemma QueueJoins<T>(out: seq<T>, mid: seq<T>, queue: seq<T>, more: seq<T>, out': seq<T>, left: seq<T>, more': seq<T>)
    requires out + mid == queue + more && out' + left == mid + more'
    ensures (out + out') + left == queue + (more + more')
  {
    Reassociate(out, out', left);
    Reassociate(out, mid, more');
    Reassociate(queue, more, more');
  }

  /** 0, 1 up to k - 1. */
  function Upto(k: nat): (ns: seq<nat>) {
    seq(k, i => i)
  }

  lemma UptoNext(k: nat)
    ensures Upto(k + 1) == Upto(k) + [k]
  {
  }
}
