/** Sequence helpers: order-preserving filtering, flattening and prefix sums. */
module Seqs {

  /** The elements of `s` that satisfy `p`, in their original order
      (a list comprehension, or a loop that appends to a fresh list). */
  function Filter<T>(s: seq<T>, p: T -> bool): (r: seq<T>)
    ensures |r| <= |s|
    ensures forall x :: x in r ==> x in s && p(x)
  {
    if s == [] then [] else Filter(s[..|s| - 1], p) + (if p(s[|s| - 1]) then [s[|s| - 1]] else [])
  }

  lemma FilterAppend<T>(s: seq<T>, x: T, p: T -> bool)
    ensures Filter(s + [x], p) == Filter(s, p) + (if p(x) then [x] else [])
  {
    assert (s + [x])[..|s|] == s;
  }

  /** Filtering keeps the survivors in their order: a relation that holds
      between every earlier and later element of `s` holds between every
      earlier and later element kept. */
  lemma {:induction false} FilterKeepsOrder<T>(s: seq<T>, p: T -> bool, before: (T, T) -> bool)
    requires forall i, j :: 0 <= i < j < |s| ==> before(s[i], s[j])
    ensures forall i, j :: 0 <= i < j < |Filter(s, p)| ==> before(Filter(s, p)[i], Filter(s, p)[j])
  {
    if s != [] {
      var n := |s| - 1;
      var init, last := s[..n], s[n];
      FilterKeepsOrder(init, p, before);
      var prev := Filter(init, p);
      forall i | 0 <= i < |prev| ensures before(prev[i], last) {
        assert prev[i] in init;
        var m :| 0 <= m < |init| && init[m] == prev[i];
        assert s[m] == init[m];
      }
    }
  }

  /** Filtering keeps every occurrence of a kept element and drops every
      occurrence of the others. */
  lemma {:induction false} FilterCount<T>(s: seq<T>, p: T -> bool, x: T)
    ensures multiset(Filter(s, p))[x] == if p(x) then multiset(s)[x] else 0
  {
    if s != [] {
      FilterCount(s[..|s| - 1], p, x);
      assert s == s[..|s| - 1] + [s[|s| - 1]];
    }
  }

  /** Filtering with two predicates that never both hold splits the elements
      that satisfy either. */
  lemma {:induction false} FilterDisjointCount<T>(s: seq<T>, p: T -> bool, q: T -> bool)
    requires forall x :: !(p(x) && q(x))
    ensures |Filter(s, p)| + |Filter(s, q)| == |Filter(s, x => p(x) || q(x))|
  {
    if s != [] {
      FilterDisjointCount(s[..|s| - 1], p, q);
    }
  }

  /** How often `x` occurs in `s`, counted from the back like `Filter`. */
  function Count<T(==)>(s: seq<T>, x: T): nat {
    if s == [] then 0 else Count(s[..|s| - 1], x) + (if s[|s| - 1] == x then 1 else 0)
  }

  lemma {:induction false} CountAppend<T>(a: seq<T>, b: seq<T>, x: T)
    ensures Count(a + b, x) == Count(a, x) + Count(b, x)
    decreases |b|
  {
    if b == [] {
      assert a + b == a;
    } else {
      var b' := b[..|b| - 1];
      assert (a + b)[..|a + b| - 1] == a + b';
      CountAppend(a, b', x);
    }
  }

  /** `Count` is the multiplicity in the multiset of the elements. */
  lemma {:induction false} CountMultiplicity<T>(s: seq<T>, x: T)
    ensures Count(s, x) == multiset(s)[x]
  {
    if s != [] {
      CountMultiplicity(s[..|s| - 1], x);
      assert s == s[..|s| - 1] + [s[|s| - 1]];
    }
  }

  function Concat<T>(ss: seq<seq<T>>): seq<T> {
    if ss == [] then [] else Concat(ss[..|ss| - 1]) + ss[|ss| - 1]
  }

  lemma ConcatAppend<T>(ss: seq<seq<T>>, s: seq<T>)
    ensures Concat(ss + [s]) == Concat(ss) + s
  {
    assert (ss + [s])[..|ss|] == ss;
  }

  lemma Assoc<T>(a: seq<T>, b: seq<T>, c: seq<T>)
    ensures a + b + c == a + (b + c)
  {
  }

  /** Filtering a concatenation filters each part. */
  lemma {:induction false} FilterConcat<T>(a: seq<T>, b: seq<T>, p: T -> bool)
    ensures Filter(a + b, p) == Filter(a, p) + Filter(b, p)
    decreases |b|
  {
    if b == [] {
      assert a + b == a;
    } else {
      var init, last := b[..|b| - 1], b[|b| - 1];
      var fa, fi, t := Filter(a, p), Filter(init, p), if p(last) then [last] else [];
      calc {
        Filter(a + b, p);
        { assert a + b == (a + init) + [last]; FilterAppend(a + init, last, p); }
        Filter(a + init, p) + t;
        { FilterConcat(a, init, p); }
        fa + fi + t;
        { Assoc(fa, fi, t); }
        fa + (fi + t);
        { assert b == init + [last]; FilterAppend(init, last, p); }
        fa + Filter(b, p);
      }
    }
  }

  /** Filtering from the front: the head is kept or dropped, then the tail. */
  lemma FilterCons<T>(x: T, s: seq<T>, p: T -> bool)
    ensures Filter([x] + s, p) == (if p(x) then [x] else []) + Filter(s, p)
  {
    FilterConcat([x], s, p);
    FilterAppend([], x, p);
    assert [] + [x] == [x];
  }

  lemma {:induction false} ConcatCons<T>(s: seq<T>, ss: seq<seq<T>>)
    ensures Concat([s] + ss) == s + Concat(ss)
    decreases |ss|
  {
    if ss == [] {
      assert [s] + ss == [s] && [s][..0] == [];
    } else {
      var init := ss[..|ss| - 1];
      ConcatCons(s, init);
      assert ([s] + ss)[..|ss|] == [s] + init;
      assert ([s] + ss)[|ss|] == ss[|ss| - 1];
    }
  }

  function SumLengths<T>(ss: seq<seq<T>>): nat {
    if ss == [] then 0 else SumLengths(ss[..|ss| - 1]) + |ss[|ss| - 1]|
  }

  lemma {:induction false} ConcatLength<T>(ss: seq<seq<T>>)
    ensures |Concat(ss)| == SumLengths(ss)
  {
    if ss != [] {
      ConcatLength(ss[..|ss| - 1]);
    }
  }

  /** The sum of the lengths of the first `i` pieces: where piece `i` starts
      when the pieces are laid out back to back. */
  function Offset<T>(ss: seq<seq<T>>, i: nat): nat
    requires i <= |ss|
  {
    SumLengths(ss[..i])
  }

  /** Back-to-back layout: piece `i` occupies exactly
      `[Offset(i), Offset(i) + |ss[i]|)` of the concatenation, and the last
      piece ends where the concatenation ends. */
  lemma {:induction false} ConcatSlice<T>(ss: seq<seq<T>>, i: nat)
    requires i < |ss|
    ensures Offset(ss, i) + |ss[i]| <= |Concat(ss)|
    ensures Concat(ss)[Offset(ss, i)..Offset(ss, i) + |ss[i]|] == ss[i]
  {
    var n := |ss| - 1;
    var init := ss[..n];
    assert ss == init + [ss[n]];
    ConcatLength(ss);
    ConcatLength(init);
    if i == n {
      assert ss[..i] == init;
    } else {
      ConcatSlice(init, i);
      assert init[..i] == ss[..i];
    }
  }

  lemma OffsetStep<T>(ss: seq<seq<T>>, i: nat)
    requires i < |ss|
    ensures Offset(ss, i + 1) == Offset(ss, i) + |ss[i]|
  {
    assert ss[..i + 1][..i] == ss[..i];
  }

  /** The first `i + 1` pieces put together: the first `i`, then piece `i`. */
  lemma ConcatPrefixStep<T>(ss: seq<seq<T>>, i: nat)
    requires i < |ss|
    ensures Concat(ss[..i + 1]) == Concat(ss[..i]) + ss[i]
  {
    assert ss[..i + 1][..i] == ss[..i];
  }
}
