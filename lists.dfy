/** `Array.prototype.filter` on sequences, and the facts about it that the
    views, the counts and the roster edits rely on. */
module Lists {

  /** The elements of `s` that `keep` accepts, in their original order. */
  function Filter<T>(s: seq<T>, keep: T -> bool): (r: seq<T>)
    ensures |r| <= |s|
    ensures forall i :: 0 <= i < |r| ==> keep(r[i]) && r[i] in s
    ensures forall i :: 0 <= i < |s| && keep(s[i]) ==> s[i] in r
    decreases |s|
  {
    if s == [] then []
    else (if keep(s[0]) then [s[0]] else []) + Filter(s[1..], keep)
  }

  /** Filtering distributes over concatenation: the kept elements of `a`
      come first, in order, then those of `b`. */
  lemma {:induction false} FilterAppend<T>(a: seq<T>, b: seq<T>, keep: T -> bool)
    ensures Filter(a + b, keep) == Filter(a, keep) + Filter(b, keep)
    decreases |a|
  {
    if a == [] {
      assert a + b == b;
    } else {
      assert (a + b)[0] == a[0];
      assert (a + b)[1..] == a[1..] + b;
      FilterAppend(a[1..], b, keep);
    }
  }

  /** A filter that accepts every element returns the sequence unchanged. */
  lemma {:induction false} FilterKeepsAll<T>(s: seq<T>, keep: T -> bool)
    requires forall x :: x in s ==> keep(x)
    ensures Filter(s, keep) == s
    decreases |s|
  {
    if s != [] {
      assert forall x :: x in s[1..] ==> x in s;
      FilterKeepsAll(s[1..], keep);
    }
  }

  /** Two complementary filters split a sequence: their lengths add up to
      its length and their elements, together, are exactly its elements. */
  lemma {:induction false} FilterPartition<T>(s: seq<T>, keep: T -> bool, drop: T -> bool)
    requires forall x :: drop(x) == !keep(x)
    ensures |Filter(s, keep)| + |Filter(s, drop)| == |s|
    ensures multiset(Filter(s, keep)) + multiset(Filter(s, drop)) == multiset(s)
    decreases |s|
  {
    if s != [] {
      FilterPartition(s[1..], keep, drop);
      assert s == [s[0]] + s[1..];
    }
  }

  /** If, position by position, every element `x` keeps implies that the
      element `y` keeps, then `y` keeps at least as many elements. */
  lemma {:induction false} FilterCountMonotone<T, U>(
    x: seq<T>, kx: T -> bool, y: seq<U>, ky: U -> bool)
    requires |x| == |y|
    requires forall i :: 0 <= i < |x| ==> kx(x[i]) ==> ky(y[i])
    ensures |Filter(x, kx)| <= |Filter(y, ky)|
    decreases |x|
  {
    if x != [] {
      FilterCountMonotone(x[1..], kx, y[1..], ky);
    }
  }
}
