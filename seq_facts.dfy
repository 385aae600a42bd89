/** Facts about integer sequences used by the completion and resume proofs. */
module SeqFacts {

  /** Element-wise image of a sequence (Python's list comprehension `[f(x) for x in s]`). */
  function Map<A, B>(f: A -> B, s: seq<A>): (r: seq<B>)
    ensures |r| == |s|
    ensures forall i :: 0 <= i < |s| ==> r[i] == f(s[i])
  {
    seq(|s|, i requires 0 <= i < |s| => f(s[i]))
  }

  /** The integers lo, lo + 1, ..., hi - 1 (Python's `range(lo, hi)`). */
  function Range(lo: int, hi: int): (r: seq<int>)
    ensures |r| == if lo <= hi then hi - lo else 0
    ensures forall i :: 0 <= i < |r| ==> r[i] == lo + i
  {
    seq(if lo <= hi then hi - lo else 0, i => lo + i)
  }

  predicate Sorted(s: seq<int>)
  {
    forall i, j :: 0 <= i < j < |s| ==> s[i] <= s[j]
  }

  predicate StrictlyIncreasing(s: seq<int>)
  {
    forall i, j :: 0 <= i < j < |s| ==> s[i] < s[j]
  }

  predicate Distinct(s: seq<int>)
  {
    forall i, j :: 0 <= i < j < |s| ==> s[i] != s[j]
  }

  /** Concatenation is associative (stated on plain sequences, so that the
      solver need not look inside large terms). */
  lemma AppendAssoc<T>(a: seq<T>, b: seq<T>, c: seq<T>)
    ensures a + b + c == a + (b + c)
  {
  }

  /** Equal prefixes with the same tail give equal sequences (stated on plain
      sequences, for the same reason). */
  lemma SameTail<T>(x: seq<T>, y: seq<T>, y': seq<T>, tail: seq<T>, z: seq<T>)
    requires x == y + tail && y == y' && z == y' + tail
    ensures x == z
  {
  }

  lemma MapAppend<A, B>(f: A -> B, s: seq<A>, t: seq<A>)
    ensures Map(f, s + t) == Map(f, s) + Map(f, t)
  {
  }

  /** Mapping a permutation gives a permutation of the image. */
  lemma {:induction false} MapPermutation<A, B>(f: A -> B, s: seq<A>, t: seq<A>)
    requires multiset(s) == multiset(t)
    ensures multiset(Map(f, s)) == multiset(Map(f, t))
    decreases |s|
  {
    if s == [] {
      assert |t| == |multiset(t)| == 0;
    } else {
      var x := s[0];
      assert x in multiset(t);
      var k :| 0 <= k < |t| && t[k] == x;
      var rest := t[..k] + t[k + 1..];
      RemoveAt(s, t, k);
      MapPermutation(f, s[1..], rest);
      MapRemoveAt(f, t, k);
      MapCons(f, s);
      ConsPermutation(Map(f, s[1..]), Map(f, rest), Map(f, t), f(x));
    }
  }

  lemma MapCons<A, B>(f: A -> B, s: seq<A>)
    requires s != []
    ensures Map(f, s) == [f(s[0])] + Map(f, s[1..])
  {
    var r := [f(s[0])] + Map(f, s[1..]);
    forall i | 0 <= i < |s| ensures Map(f, s)[i] == r[i] {
      if i > 0 {
        assert r[i] == Map(f, s[1..])[i - 1] && s[1..][i - 1] == s[i];
      }
    }
  }

  lemma ConsPermutation<B>(a: seq<B>, b: seq<B>, c: seq<B>, y: B)
    requires multiset(a) == multiset(b)
    requires multiset(c) == multiset(b) + multiset{y}
    ensures multiset([y] + a) == multiset(c)
  {
  }

  /** Two permutations with the same first element have permuted tails. */
  lemma TailPermutation<A>(s: seq<A>, t: seq<A>)
    requires multiset(s) == multiset(t)
    requires s != [] && t != [] && s[0] == t[0]
    ensures multiset(s[1..]) == multiset(t[1..])
  {
    RemoveAt(s, t, 0);
    assert t[..0] + t[1..] == t[1..];
  }

  /** Taking the same element out of two permutations leaves permutations. */
  lemma RemoveAt<A>(s: seq<A>, t: seq<A>, k: int)
    requires multiset(s) == multiset(t)
    requires s != [] && 0 <= k < |t| && t[k] == s[0]
    ensures multiset(s[1..]) == multiset(t[..k] + t[k + 1..])
  {
    assert t == t[..k] + [t[k]] + t[k + 1..];
    assert s == [s[0]] + s[1..];
    var rest := t[..k] + t[k + 1..];
    assert multiset(t) == multiset(rest) + multiset{t[k]};
    assert multiset(s) == multiset(s[1..]) + multiset{s[0]};
    forall v ensures multiset(s[1..])[v] == multiset(rest)[v] {
      assert multiset(s)[v] == multiset(t)[v];
    }
  }

  /** The image of `t` is the image of `t` without its element k, plus f(t[k]). */
  lemma MapRemoveAt<A, B>(f: A -> B, t: seq<A>, k: int)
    requires 0 <= k < |t|
    ensures multiset(Map(f, t)) == multiset(Map(f, t[..k] + t[k + 1..])) + multiset{f(t[k])}
  {
    assert t == t[..k] + [t[k]] + t[k + 1..];
    MapAppend(f, t[..k] + [t[k]], t[k + 1..]);
    MapAppend(f, t[..k], [t[k]]);
    MapAppend(f, t[..k], t[k + 1..]);
  }

  /** Two sorted arrangements of the same multiset are the same sequence. */
  lemma {:induction false} SortedUnique(a: seq<int>, b: seq<int>)
    requires Sorted(a) && Sorted(b)
    requires multiset(a) == multiset(b)
    ensures a == b
    decreases |a|
  {
    assert |a| == |multiset(a)| == |multiset(b)| == |b|;
    if a != [] {
      assert a[0] in multiset(b);
      var j :| 0 <= j < |b| && b[j] == a[0];
      assert b[0] <= b[j];
      assert b[0] in multiset(a);
      var k :| 0 <= k < |a| && a[k] == b[0];
      assert a[0] <= a[k];
      var x := a[0];
      assert b[0] == x;
      assert a == [x] + a[1..] && b == [x] + b[1..];
      assert multiset(a) == multiset([x]) + multiset(a[1..]);
      assert multiset(b) == multiset([x]) + multiset(b[1..]);
      forall v ensures multiset(a[1..])[v] == multiset(b[1..])[v] {
        assert multiset(a)[v] == multiset(b)[v];
      }
      assert multiset(a[1..]) == multiset(b[1..]);
      SortedTail(a);
      SortedTail(b);
      SortedUnique(a[1..], b[1..]);
    }
  }

  lemma SortedTail(s: seq<int>)
    requires Sorted(s) && s != []
    ensures Sorted(s[1..])
  {
    forall i, j | 0 <= i < j < |s[1..]| ensures s[1..][i] <= s[1..][j] {
      assert s[1..][i] == s[i + 1] && s[1..][j] == s[j + 1];
    }
  }

  /** In a strictly increasing sequence, j - i steps raise the value by at least j - i. */
  lemma {:induction false} StrictGap(s: seq<int>, i: int, j: int)
    requires StrictlyIncreasing(s)
    requires 0 <= i <= j < |s|
    ensures s[j] - s[i] >= j - i
    decreases j - i
  {
    if i < j {
      StrictGap(s, i + 1, j);
    }
  }

  /** A strictly increasing sequence of n values between lo and lo + n - 1 is
      exactly lo, ..., lo + n - 1. */
  lemma Packed(s: seq<int>, lo: int)
    requires StrictlyIncreasing(s)
    requires forall i :: 0 <= i < |s| ==> lo <= s[i] < lo + |s|
    ensures s == Range(lo, lo + |s|)
  {
    forall i | 0 <= i < |s|
      ensures s[i] == lo + i
    {
      StrictGap(s, 0, i);
      StrictGap(s, i, |s| - 1);
    }
  }

  /** A sequence without repeats holds each of its values exactly once. */
  lemma {:induction false} DistinctCount(s: seq<int>)
    requires Distinct(s)
    ensures forall v :: multiset(s)[v] == if v in s then 1 else 0
  {
    if s != [] {
      assert Distinct(s[1..]) by {
        forall i, j | 0 <= i < j < |s[1..]| ensures s[1..][i] != s[1..][j] {
          assert s[1..][i] == s[i + 1] && s[1..][j] == s[j + 1];
        }
      }
      DistinctCount(s[1..]);
      assert s == [s[0]] + s[1..];
      forall k | 0 <= k < |s[1..]| ensures s[1..][k] != s[0] {
        assert s[1..][k] == s[k + 1];
      }
      assert s[0] !in s[1..];
      forall v ensures multiset(s)[v] == if v in s then 1 else 0 {
        assert multiset(s)[v] == multiset([s[0]])[v] + multiset(s[1..])[v];
        assert v in s <==> v == s[0] || v in s[1..];
      }
    }
  }

  lemma StrictlyIncreasingIsDistinctSorted(s: seq<int>)
    requires StrictlyIncreasing(s)
    ensures Distinct(s) && Sorted(s)
  {
  }

  /** Two repeat-free sequences that split lo..hi-1 between them, with no
      value in both, together hold each of lo..hi-1 exactly once. */
  lemma DisjointCover(p: seq<int>, q: seq<int>, lo: int, hi: int)
    requires Distinct(p) && Distinct(q)
    requires forall v :: v in p ==> lo <= v < hi
    requires forall v :: v in q <==> lo <= v < hi && v !in p
    ensures multiset(p + q) == multiset(Range(lo, hi))
  {
    var r := Range(lo, hi);
    assert Distinct(r);
    DistinctCount(p);
    DistinctCount(q);
    DistinctCount(r);
    forall v ensures multiset(p + q)[v] == multiset(r)[v] {
      assert v in r <==> lo <= v < hi by {
        if lo <= v < hi {
          assert r[v - lo] == v;
        }
      }
    }
  }
}
