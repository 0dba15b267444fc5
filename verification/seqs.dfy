/** Sequence helpers standing in for the Python built-ins the program relies on:
    `str.index`/`list.index`, `len(set(...))` and `sorted(..., reverse=True)`. */
module Seqs {

  /** Position of the first occurrence of `x` (Python's `index`). */
  function IndexOf<T(==)>(s: seq<T>, x: T): (i: nat)
    requires x in s
    ensures i < |s| && s[i] == x
    ensures x !in s[..i]
  {
    if s[0] == x then 0
    else
      var j := IndexOf(s[1..], x);
      assert s[..j + 1] == [s[0]] + s[1..][..j];
      j + 1
  }

  /** The elements of a sequence as a set (Python's `set(s)`). */
  function Elems<T>(s: seq<T>): set<T>
  {
    set x | x in s
  }

  lemma ElemsCons<T>(s: seq<T>)
    requires |s| > 0
    ensures Elems(s) == {s[0]} + Elems(s[1..])
  {
    forall x | x in Elems(s)
      ensures x in {s[0]} + Elems(s[1..])
    {
      var i :| 0 <= i < |s| && s[i] == x;
      if i > 0 {
        assert s[1..][i - 1] == x;
      }
    }
  }

  /** Number of distinct elements (Python's `len(set(s))`). */
  function DistinctCount<T(==)>(s: seq<T>): (n: nat)
    ensures n == |Elems(s)|
    ensures n <= |s|
  {
    if |s| == 0 then 0
    else
      ElemsCons(s);
      if s[0] in s[1..] then
        assert s[0] in Elems(s[1..]);
        assert {s[0]} + Elems(s[1..]) == Elems(s[1..]);
        DistinctCount(s[1..])
      else 1 + DistinctCount(s[1..])
  }

  lemma DistinctCountPositive<T>(s: seq<T>)
    requires |s| > 0
    ensures DistinctCount(s) >= 1
  {
    assert s[0] in Elems(s);
  }

  /** A non-empty sequence has one distinct value exactly when every element
      equals the first. */
  lemma {:induction false} DistinctCountOne<T>(s: seq<T>)
    requires |s| > 0
    ensures DistinctCount(s) == 1 <==> forall i :: 0 <= i < |s| ==> s[i] == s[0]
  {
    if |s| > 1 {
      DistinctCountOne(s[1..]);
      if DistinctCount(s) == 1 {
        DistinctCountPositive(s[1..]);
        assert s[0] in s[1..];
        var k :| 0 <= k < |s[1..]| && s[1..][k] == s[0];
        forall i | 0 <= i < |s|
          ensures s[i] == s[0]
        {
          if i > 0 {
            assert s[i] == s[1..][i - 1] == s[1..][0];
          }
        }
      }
      if forall i :: 0 <= i < |s| ==> s[i] == s[0] {
        assert s[0] == s[1..][0];
        forall i | 0 <= i < |s[1..]|
          ensures s[1..][i] == s[1..][0]
        {
          assert s[1..][i] == s[i + 1];
        }
      }
    }
  }

  /** No value occurs twice. */
  predicate NoDuplicates<T(==)>(s: seq<T>)
  {
    forall i, j :: 0 <= i < j < |s| ==> s[i] != s[j]
  }

  /** A sequence has as many distinct values as positions exactly when no value repeats. */
  lemma {:induction false} DistinctCountFull<T>(s: seq<T>)
    ensures DistinctCount(s) == |s| <==> NoDuplicates(s)
  {
    if |s| > 0 {
      DistinctCountFull(s[1..]);
      if s[0] in s[1..] {
        var k :| 0 <= k < |s[1..]| && s[1..][k] == s[0];
        assert s[0] == s[k + 1];
      } else {
        if NoDuplicates(s[1..]) {
          forall i, j | 0 <= i < j < |s|
            ensures s[i] != s[j]
          {
            if i == 0 {
              assert s[j] == s[1..][j - 1];
            } else {
              assert s[i] == s[1..][i - 1] && s[j] == s[1..][j - 1];
            }
          }
        }
      }
    }
  }

  /** The positions 0 .. n-1 as a set; it has n members. */
  function Positions(n: nat): (r: set<nat>)
    ensures forall i: nat :: i in r <==> i < n
    ensures |r| == n
  {
    if n == 0 then {} else Positions(n - 1) + {n - 1}
  }

  /** Non-increasing order, as `sorted(..., reverse=True)` leaves it. */
  predicate Descending(s: seq<int>)
  {
    forall i, j :: 0 <= i < j < |s| ==> s[i] >= s[j]
  }

  function Insert(x: int, s: seq<int>): (r: seq<int>)
    requires Descending(s)
    ensures Descending(r)
    ensures multiset(r) == multiset(s) + multiset{x}
    ensures |r| == |s| + 1
  {
    if s == [] then [x]
    else if x >= s[0] then [x] + s
    else
      DescendingTail(s);
      var t := Insert(x, s[1..]);
      InsertBelowHead(x, s, t);
      [s[0]] + t
  }

  lemma InsertBelowHead(x: int, s: seq<int>, t: seq<int>)
    requires Descending(s) && |s| > 0 && x < s[0]
    requires Descending(t) && multiset(t) == multiset(s[1..]) + multiset{x}
    ensures Descending([s[0]] + t)
    ensures multiset([s[0]] + t) == multiset(s) + multiset{x}
  {
    assert s == [s[0]] + s[1..];
    forall k | 0 <= k < |t|
      ensures s[0] >= t[k]
    {
      assert t[k] in multiset(t);
      if t[k] != x {
        assert t[k] in multiset(s[1..]);
        var m :| 0 <= m < |s[1..]| && s[1..][m] == t[k];
        assert s[m + 1] == t[k];
      }
    }
  }

  /** `sorted(s, reverse=True)`: the descending rearrangement of `s`. */
  function SortDesc(s: seq<int>): (r: seq<int>)
    ensures Descending(r)
    ensures multiset(r) == multiset(s)
    ensures |r| == |s|
  {
    if s == [] then []
    else
      assert s == [s[0]] + s[1..];
      Insert(s[0], SortDesc(s[1..]))
  }

  lemma DescendingTail(s: seq<int>)
    requires Descending(s) && |s| > 0
    ensures Descending(s[1..])
  {
    forall i, j | 0 <= i < j < |s[1..]|
      ensures s[1..][i] >= s[1..][j]
    {
      assert s[1..][i] == s[i + 1] && s[1..][j] == s[j + 1];
    }
  }

  /** Two descending sequences holding the same multiset are equal, so the
      descending arrangement of a multiset is unique. */
  lemma {:induction false} DescendingUnique(a: seq<int>, b: seq<int>)
    requires Descending(a) && Descending(b)
    requires multiset(a) == multiset(b)
    ensures a == b
  {
    assert |a| == |multiset(a)| == |multiset(b)| == |b|;
    if |a| > 0 {
      assert a[0] in multiset(b) && b[0] in multiset(a);
      var i :| 0 <= i < |b| && b[i] == a[0];
      var j :| 0 <= j < |a| && a[j] == b[0];
      assert a[0] == b[0];
      assert a == [a[0]] + a[1..];
      assert b == [b[0]] + b[1..];
      assert multiset(a) == multiset{a[0]} + multiset(a[1..]);
      assert multiset(b) == multiset{b[0]} + multiset(b[1..]);
      assert multiset(a[1..]) == multiset(a) - multiset{a[0]};
      assert multiset(b[1..]) == multiset(b) - multiset{b[0]};
      DescendingTail(a);
      DescendingTail(b);
      DescendingUnique(a[1..], b[1..]);
    }
  }

  /** Taking one more element of a prefix appends that element. */
  lemma TakeOneMore<T>(s: seq<T>, j: nat)
    requires j < |s|
    ensures s[..j + 1] == s[..j] + [s[j]]
  {
  }

  /** Appending one element: dropping it again gives the original back. */
  lemma DropLast<T>(s: seq<T>, x: T)
    ensures |s + [x]| == |s| + 1
    ensures (s + [x])[..|s|] == s && (s + [x])[|s|] == x
  {
  }

  /** Pointwise image of a sequence (Python's `map`). */
  function Map<A, B>(f: A -> B, s: seq<A>): (r: seq<B>)
    ensures |r| == |s|
  {
    seq(|s|, i requires 0 <= i < |s| => f(s[i]))
  }

  lemma MapAppend<A, B>(f: A -> B, x: seq<A>, y: seq<A>)
    ensures Map(f, x + y) == Map(f, x) + Map(f, y)
  {
  }

  lemma MultisetRemove<A>(b: seq<A>, j: nat)
    requires j < |b|
    ensures multiset(b[..j] + b[j + 1..]) == multiset(b) - multiset{b[j]}
  {
    assert b == b[..j] + [b[j]] + b[j + 1..];
  }

  lemma MapRemove<A, B>(f: A -> B, b: seq<A>, j: nat)
    requires j < |b|
    ensures multiset(Map(f, b)) == multiset(Map(f, b[..j] + b[j + 1..])) + multiset{f(b[j])}
  {
    MapAppend(f, b[..j], [b[j]] + b[j + 1..]);
    MapAppend(f, [b[j]], b[j + 1..]);
    MapAppend(f, b[..j], b[j + 1..]);
    assert b == b[..j] + ([b[j]] + b[j + 1..]);
  }

  /** Rearranging a sequence rearranges its image the same way. */
  lemma {:induction false} MapPermutation<A, B>(f: A -> B, a: seq<A>, b: seq<A>)
    requires multiset(a) == multiset(b)
    ensures multiset(Map(f, a)) == multiset(Map(f, b))
  {
    assert |a| == |b| by {
      assert |multiset(a)| == |multiset(b)|;
    }
    if |a| > 0 {
      assert a[0] in b by {
        assert a[0] in multiset(a);
      }
      var j :| 0 <= j < |b| && b[j] == a[0];
      var b' := b[..j] + b[j + 1..];
      assert multiset(Map(f, a[1..])) == multiset(Map(f, b')) by {
        MultisetRemove(a, 0);
        MultisetRemove(b, j);
        assert a[..0] + a[1..] == a[1..];
        MapPermutation(f, a[1..], b');
      }
      assert multiset(Map(f, a)) == multiset(Map(f, a[1..])) + multiset{f(a[0])} by {
        MapRemove(f, a, 0);
        assert a[..0] + a[1..] == a[1..];
      }
      assert multiset(Map(f, b)) == multiset(Map(f, b')) + multiset{f(b[j])} by {
        MapRemove(f, b, j);
      }
    }
  }
}
