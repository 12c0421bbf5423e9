/**
 * Boolean-mask row selection, `table[mask]` in pandas: the rows for which a
 * predicate holds, in their original order.
 */
module Masks {

  /** `a` can be obtained from `b` by deleting elements (order is kept). */
  predicate Subseq<T(==)>(a: seq<T>, b: seq<T>)
    decreases |b|
  {
    if a == [] then true
    else if b == [] then false
    else if a[0] == b[0] then Subseq(a[1..], b[1..])
    else Subseq(a, b[1..])
  }

  /**
   * The rows of `s` that satisfy `p`: every kept row satisfies `p` and is a row
   * of `s`, and the kept rows appear in their original order.
   */
  function Filter<T(==)>(p: T -> bool, s: seq<T>): (r: seq<T>)
    ensures |r| <= |s|
    ensures forall i :: 0 <= i < |r| ==> p(r[i]) && r[i] in s
    ensures Subseq(r, s)
  {
    if s == [] then []
    else if p(s[0]) then [s[0]] + Filter(p, s[1..]) else Filter(p, s[1..])
  }

  /**
   * Nothing is lost and nothing is invented: a value satisfying `p` occurs in
   * the selection exactly as often as in `s`, any other value never.
   */
  lemma {:induction false} FilterCount<T(!new)>(p: T -> bool, s: seq<T>)
    ensures forall x :: multiset(Filter(p, s))[x] == if p(x) then multiset(s)[x] else 0
  {
    if s != [] {
      assert s == [s[0]] + s[1..];
      FilterCount(p, s[1..]);
    }
  }

  /** A row of `s` is selected exactly when it satisfies the mask. */
  lemma {:induction false} FilterMember<T(!new)>(p: T -> bool, s: seq<T>, x: T)
    requires x in s
    ensures x in Filter(p, s) <==> p(x)
  {
    FilterCount(p, s);
    assert x in multiset(s);
    assert x in Filter(p, s) <==> x in multiset(Filter(p, s));
  }

  /** Applying two masks one after the other is applying their conjunction. */
  lemma {:induction false} FilterFusion<T(!new)>(p: T -> bool, q: T -> bool, pq: T -> bool, s: seq<T>)
    requires forall x :: pq(x) == (q(x) && p(x))
    ensures Filter(p, Filter(q, s)) == Filter(pq, s)
  {
    if s != [] {
      FilterFusion(p, q, pq, s[1..]);
    }
  }

  /** A mask and its complement split a table: together they hold every row once. */
  lemma {:induction false} FilterComplement<T(!new)>(p: T -> bool, q: T -> bool, s: seq<T>)
    requires forall x :: q(x) == !p(x)
    ensures multiset(Filter(p, s)) + multiset(Filter(q, s)) == multiset(s)
    ensures |Filter(p, s)| + |Filter(q, s)| == |s|
  {
    FilterCount(p, s);
    FilterCount(q, s);
    assert multiset(Filter(p, s)) + multiset(Filter(q, s)) == multiset(s);
    assert |multiset(Filter(p, s)) + multiset(Filter(q, s))| == |multiset(s)|;
  }

  /** Two masks that never both hold select, together, the rows of their disjunction. */
  lemma {:induction false} FilterDisjointUnion<T(!new)>(p: T -> bool, q: T -> bool, pq: T -> bool, s: seq<T>)
    requires forall x :: pq(x) == (p(x) || q(x))
    requires forall x :: !(p(x) && q(x))
    ensures multiset(Filter(p, s)) + multiset(Filter(q, s)) == multiset(Filter(pq, s))
    ensures |Filter(p, s)| + |Filter(q, s)| == |Filter(pq, s)|
  {
    FilterCount(p, s);
    FilterCount(q, s);
    FilterCount(pq, s);
    assert multiset(Filter(p, s)) + multiset(Filter(q, s)) == multiset(Filter(pq, s));
    assert |multiset(Filter(p, s)) + multiset(Filter(q, s))| == |multiset(Filter(pq, s))|;
  }

  /** A mask that excludes no row of `s` keeps `s` unchanged. */
  lemma {:induction false} FilterAll<T(!new)>(p: T -> bool, s: seq<T>)
    requires forall i :: 0 <= i < |s| ==> p(s[i])
    ensures Filter(p, s) == s
  {
    if s != [] {
      FilterAll(p, s[1..]);
    }
  }
}
