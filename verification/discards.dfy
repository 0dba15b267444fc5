/** The enumeration of discard patterns: for a count n, every list of n hand
    positions (0 .. 4) in strictly increasing order, in lexicographic order. */
module Discards {
  import opened Seqs

  /** Every element is below the next. */
  predicate Increasing(t: seq<int>)
  {
    forall i, j :: 0 <= i < j < |t| ==> t[i] < t[j]
  }

  /** Every element is a hand position no smaller than lo. */
  predicate Within(t: seq<int>, lo: int)
  {
    forall i :: 0 <= i < |t| ==> lo <= t[i] < 5
  }

  /** Python's ordering of lists: element by element, a proper prefix first. */
  predicate LexLess(a: seq<int>, b: seq<int>)
  {
    if |a| == 0 then |b| > 0
    else |b| > 0 && (a[0] < b[0] || (a[0] == b[0] && LexLess(a[1..], b[1..])))
  }

  /** Each list of `ls` with `p` put in front. */
  function Extend(p: seq<int>, ls: seq<seq<int>>): (r: seq<seq<int>>)
    ensures |r| == |ls|
  {
    if ls == [] then [] else [p + ls[0]] + Extend(p, ls[1..])
  }

  lemma {:induction false} ExtendAt(p: seq<int>, ls: seq<seq<int>>, i: nat)
    requires i < |ls|
    ensures Extend(p, ls)[i] == p + ls[i]
  {
    if i > 0 {
      ExtendAt(p, ls[1..], i - 1);
    }
  }

  /** The reference enumeration: the strictly increasing lists of length n over
      lo .. 4, those starting with lo first. */
  function Choose(n: nat, lo: nat): seq<seq<int>>
    decreases n, 5 - lo
  {
    if n == 0 then [[]]
    else if lo >= 5 then []
    else Extend([lo], Choose(n - 1, lo + 1)) + Choose(n, lo + 1)
  }

  /** Pascal's rule for the binomial coefficient. */
  function Binomial(m: nat, k: nat): nat
  {
    if k == 0 then 1
    else if m == 0 then 0
    else Binomial(m - 1, k - 1) + Binomial(m - 1, k)
  }

  lemma ConsIncreasing(lo: int, u: seq<int>)
    requires 0 <= lo < 5 && Increasing(u) && Within(u, lo + 1)
    ensures Increasing([lo] + u) && Within([lo] + u, lo)
  {
    var t := [lo] + u;
    forall i, j | 0 <= i < j < |t|
      ensures t[i] < t[j]
    {
      assert t[j] == u[j - 1];
      if i > 0 {
        assert t[i] == u[i - 1];
      }
    }
  }

  /** A list whose head is lo and whose tail is increasing above lo is increasing from lo. */
  lemma ConsShape(lo: int, t: seq<int>)
    requires 0 <= lo < 5 && |t| > 0 && t[0] == lo
    requires Increasing(t[1..]) && Within(t[1..], lo + 1)
    ensures Increasing(t) && Within(t, lo)
  {
    ConsIncreasing(lo, t[1..]);
    assert t == [lo] + t[1..];
  }

  lemma {:induction false} BinomialBeyond(m: nat, k: nat)
    requires k > m
    ensures Binomial(m, k) == 0
  {
    if m > 0 {
      BinomialBeyond(m - 1, k - 1);
      BinomialBeyond(m - 1, k);
    }
  }

  /** One step of the enumeration: the lists starting with lo, then those
      starting later. */
  lemma ChooseUnfold(n: nat, lo: nat)
    requires n > 0 && lo < 5
    ensures Choose(n, lo) == Extend([lo], Choose(n - 1, lo + 1)) + Choose(n, lo + 1)
  {
  }

  /** A listed pattern of n > 0 positions either starts with lo, followed by
      a pattern listed from lo + 1, or is itself listed from lo + 1. */
  lemma ChooseSplit(n: nat, lo: nat, t: seq<int>)
    requires n > 0 && t in Choose(n, lo)
    ensures lo < 5
    ensures t in Choose(n, lo + 1) || (|t| > 0 && t[0] == lo && t[1..] in Choose(n - 1, lo + 1))
  {
    assert lo < 5;
    ChooseUnfold(n, lo);
    var ls := Choose(n - 1, lo + 1);
    if t in Extend([lo], ls) {
      var i :| 0 <= i < |ls| && Extend([lo], ls)[i] == t;
      ExtendAt([lo], ls, i);
      assert t[1..] == ls[i];
    }
  }

  /** A listed pattern has n positions, strictly increasing, from lo .. 4. */
  lemma {:induction false} ChooseShapeAt(n: nat, lo: nat, t: seq<int>)
    requires t in Choose(n, lo)
    ensures |t| == n && Increasing(t) && Within(t, lo)
    decreases n, 5 - lo, 1
  {
    if n == 0 {
      assert t == [];
    } else {
      ChooseSplit(n, lo, t);
      if t in Choose(n, lo + 1) {
        ChooseShapeAt(n, lo + 1, t);
      } else {
        ChooseShapeHead(n, lo, t);
      }
    }
  }

  /** The shape of a listed pattern that starts with lo. */
  lemma {:induction false} ChooseShapeHead(n: nat, lo: nat, t: seq<int>)
    requires n > 0 && lo < 5
    requires |t| > 0 && t[0] == lo && t[1..] in Choose(n - 1, lo + 1)
    ensures |t| == n && Increasing(t) && Within(t, lo)
    decreases n, 5 - lo, 0
  {
    var u := t[1..];
    ChooseShapeAt(n - 1, lo + 1, u);
    assert |u| == n - 1 && Increasing(u) && Within(u, lo + 1);
    ConsShape(lo, t);
  }

  /** Every listed pattern has n positions, strictly increasing, from lo .. 4. */
  lemma ChooseShape(n: nat, lo: nat)
    ensures forall t :: t in Choose(n, lo) ==> |t| == n && Increasing(t) && Within(t, lo)
  {
    forall t | t in Choose(n, lo)
      ensures |t| == n && Increasing(t) && Within(t, lo)
    {
      ChooseShapeAt(n, lo, t);
    }
  }

  lemma TailWithin(t: seq<int>, lo: int)
    requires |t| > 0 && Increasing(t) && Within(t, lo)
    ensures Increasing(t[1..]) && Within(t[1..], t[0] + 1)
  {
    var u := t[1..];
    forall i | 0 <= i < |u|
      ensures t[0] + 1 <= u[i] < 5
    {
      assert u[i] == t[i + 1];
    }
    forall i, j | 0 <= i < j < |u|
      ensures u[i] < u[j]
    {
      assert u[i] == t[i + 1] && u[j] == t[j + 1];
    }
  }

  /** A list starting above lo lies within lo + 1 .. 4. */
  lemma WithinAbove(t: seq<int>, lo: int)
    requires |t| > 0 && Increasing(t) && Within(t, lo) && t[0] != lo
    ensures Within(t, lo + 1)
  {
    forall i | 0 <= i < |t|
      ensures lo + 1 <= t[i] < 5
    {
      if i > 0 {
        assert t[0] < t[i];
      }
    }
  }

  /** Putting lo in front of a pattern listed from lo + 1 gives one listed from lo. */
  lemma HeadMember(n: nat, lo: nat, t: seq<int>)
    requires n > 0 && lo < 5
    requires |t| > 0 && t[0] == lo && t[1..] in Choose(n - 1, lo + 1)
    ensures t in Choose(n, lo)
  {
    ChooseUnfold(n, lo);
    var ls := Choose(n - 1, lo + 1);
    var i :| 0 <= i < |ls| && ls[i] == t[1..];
    ExtendAt([lo], ls, i);
    assert [lo] + t[1..] == t;
    assert Choose(n, lo)[i] == t;
  }

  /** A pattern listed from lo + 1 is listed from lo. */
  lemma TailMember(n: nat, lo: nat, t: seq<int>)
    requires n > 0 && lo < 5 && t in Choose(n, lo + 1)
    ensures t in Choose(n, lo)
  {
    ChooseUnfold(n, lo);
  }

  /** Every strictly increasing list of n positions from lo .. 4 is listed. */
  lemma {:induction false} ChooseComplete(n: nat, lo: nat, t: seq<int>)
    requires |t| == n && Increasing(t) && Within(t, lo)
    ensures t in Choose(n, lo)
    decreases n, 5 - lo
  {
    if n == 0 {
      assert t == [];
    } else {
      assert lo < 5 by {
        assert lo <= t[0] < 5;
      }
      if t[0] == lo {
        TailWithin(t, lo);
        ChooseComplete(n - 1, lo + 1, t[1..]);
        HeadMember(n, lo, t);
      } else {
        WithinAbove(t, lo);
        ChooseComplete(n, lo + 1, t);
        TailMember(n, lo, t);
      }
    }
  }

  /** Listed patterns strictly ascend in Python's list order. */
  predicate Ascending(ls: seq<seq<int>>)
  {
    forall i, j :: 0 <= i < j < |ls| ==> LexLess(ls[i], ls[j])
  }

  lemma ExtendAscending(x: int, ls: seq<seq<int>>)
    requires Ascending(ls)
    ensures Ascending(Extend([x], ls))
  {
    var e := Extend([x], ls);
    forall i, j | 0 <= i < j < |e|
      ensures LexLess(e[i], e[j])
    {
      ExtendAt([x], ls, i);
      ExtendAt([x], ls, j);
      assert e[i][1..] == ls[i] && e[j][1..] == ls[j];
    }
  }

  /** Two ascending lists, every entry of the first below every entry of
      the second, ascend when joined. */
  lemma AscendingAppend(a: seq<seq<int>>, b: seq<seq<int>>)
    requires Ascending(a) && Ascending(b)
    requires forall i, j :: 0 <= i < |a| && 0 <= j < |b| ==> LexLess(a[i], b[j])
    ensures Ascending(a + b)
  {
    var c := a + b;
    forall i, j | 0 <= i < j < |c|
      ensures LexLess(c[i], c[j])
    {
      if j < |a| {
        assert c[i] == a[i] && c[j] == a[j];
      } else if i < |a| {
        assert c[i] == a[i] && c[j] == b[j - |a|];
      } else {
        assert c[i] == b[i - |a|] && c[j] == b[j - |a|];
      }
    }
  }

  /** The lists starting with lo come before those starting later. */
  lemma HeadBeforeTail(n: nat, lo: nat)
    requires n > 0 && lo < 5
    ensures var head, tail := Extend([lo], Choose(n - 1, lo + 1)), Choose(n, lo + 1);
      forall i, j :: 0 <= i < |head| && 0 <= j < |tail| ==> LexLess(head[i], tail[j])
  {
    var head, tail := Extend([lo], Choose(n - 1, lo + 1)), Choose(n, lo + 1);
    forall i, j | 0 <= i < |head| && 0 <= j < |tail|
      ensures LexLess(head[i], tail[j])
    {
      ExtendAt([lo], Choose(n - 1, lo + 1), i);
      assert head[i][0] == lo;
      ChooseShapeAt(n, lo + 1, tail[j]);
      assert tail[j][0] >= lo + 1;
    }
  }

  /** The enumeration is in strictly ascending lexicographic order. */
  lemma {:induction false} ChooseAscending(n: nat, lo: nat)
    ensures Ascending(Choose(n, lo))
    decreases n, 5 - lo
  {
    if n > 0 && lo < 5 {
      ChooseAscending(n - 1, lo + 1);
      ChooseAscending(n, lo + 1);
      AscendingStep(n, lo);
    }
  }

  /** The two groups of the enumeration, each ascending, ascend together. */
  lemma AscendingStep(n: nat, lo: nat)
    requires n > 0 && lo < 5
    requires Ascending(Choose(n - 1, lo + 1)) && Ascending(Choose(n, lo + 1))
    ensures Ascending(Choose(n, lo))
  {
    ChooseUnfold(n, lo);
    ExtendAscending(lo, Choose(n - 1, lo + 1));
    HeadBeforeTail(n, lo);
    AscendingAppend(Extend([lo], Choose(n - 1, lo + 1)), Choose(n, lo + 1));
  }

  lemma {:induction false} LexIrreflexive(a: seq<int>)
    ensures !LexLess(a, a)
  {
    if |a| > 0 {
      LexIrreflexive(a[1..]);
    }
  }

  /** No pattern is listed twice. */
  lemma ChooseNoRepeats(n: nat, lo: nat)
    ensures forall i, j :: 0 <= i < j < |Choose(n, lo)| ==> Choose(n, lo)[i] != Choose(n, lo)[j]
  {
    ChooseAscending(n, lo);
    forall i, j | 0 <= i < j < |Choose(n, lo)|
      ensures Choose(n, lo)[i] != Choose(n, lo)[j]
    {
      LexIrreflexive(Choose(n, lo)[i]);
    }
  }

  /** There are C(5 - lo, n) patterns. */
  lemma {:induction false} ChooseCount(n: nat, lo: nat)
    requires lo <= 5
    ensures |Choose(n, lo)| == Binomial(5 - lo, n)
    decreases n, 5 - lo
  {
    if n > 0 && lo < 5 {
      ChooseCount(n - 1, lo + 1);
      ChooseCount(n, lo + 1);
    }
  }

  lemma {:induction false} ExtendAppend(p: seq<int>, a: seq<seq<int>>, b: seq<seq<int>>)
    ensures Extend(p, a + b) == Extend(p, a) + Extend(p, b)
  {
    if a != [] {
      assert (a + b)[1..] == a[1..] + b;
      ExtendAppend(p, a[1..], b);
    } else {
      assert a + b == b;
    }
  }

  lemma {:induction false} ExtendExtend(p: seq<int>, x: int, ls: seq<seq<int>>)
    ensures Extend(p, Extend([x], ls)) == Extend(p + [x], ls)
  {
    if ls != [] {
      ExtendExtend(p, x, ls[1..]);
      assert p + ([x] + ls[0]) == (p + [x]) + ls[0];
    }
  }

  /** The patterns of length n that extend the prefix `p` by positions from
      lo on; none once `p` is already n long. */
  function Completions(p: seq<nat>, n: nat, lo: nat): seq<seq<int>>
  {
    if |p| < n then Extend(p, Choose(n - |p|, lo)) else []
  }

  /** The patterns of length n the generator still has to yield when its
      stack is `s` and its cursor `w`: the completions of `s` by positions
      from `w` on, then, for each shorter prefix of `s`, the completions that
      continue past the element that follows it. */
  function Pending(s: seq<nat>, w: nat, n: nat): seq<seq<int>>
  {
    Completions(s, n, w) + Backtrack(s, n)
  }

  function Backtrack(s: seq<nat>, n: nat): seq<seq<int>>
  {
    if s == [] then []
    else
      var p := s[..|s| - 1];
      Completions(p, n, s[|s| - 1] + 1) + Backtrack(p, n)
  }

  lemma {:induction false} ExtendNothing(ls: seq<seq<int>>)
    ensures Extend([], ls) == ls
  {
    if ls != [] {
      ExtendNothing(ls[1..]);
      assert [] + ls[0] == ls[0];
    }
  }

  /** Splitting off the completions that start with the cursor itself. */
  lemma CompletionsSplit(s: seq<nat>, w: nat, k: nat)
    requires w < 5 && k > 0
    ensures Extend(s, Choose(k, w))
         == Extend(s + [w], Choose(k - 1, w + 1)) + Extend(s, Choose(k, w + 1))
  {
    assert Choose(k, w) == Extend([w], Choose(k - 1, w + 1)) + Choose(k, w + 1);
    ExtendAppend(s, Extend([w], Choose(k - 1, w + 1)), Choose(k, w + 1));
    ExtendExtend(s, w, Choose(k - 1, w + 1));
  }

  lemma BacktrackPush(s: seq<nat>, w: nat, n: nat)
    ensures Backtrack(s + [w], n) == Completions(s, n, w + 1) + Backtrack(s, n)
  {
    DropLast(s, w);
  }

  lemma Regroup<T>(a: seq<T>, b: seq<T>, c: seq<T>)
    ensures (a + b) + c == a + (b + c)
  {
  }

  /** The pattern a push completes, if the stack reaches n positions. */
  function Yield(s: seq<nat>, w: nat, n: nat): seq<seq<int>>
  {
    if |s| + 1 == n then [s + [w]] else []
  }

  lemma CompletionsPushShort(s: seq<nat>, w: nat, n: nat)
    requires w < 5 && |s| + 1 < n
    ensures Completions(s, n, w) == Completions(s + [w], n, w + 1) + Completions(s, n, w + 1)
  {
    var k := n - |s|;
    assert Completions(s, n, w) == Extend(s, Choose(k, w));
    assert Completions(s + [w], n, w + 1) == Extend(s + [w], Choose(k - 1, w + 1));
    assert Completions(s, n, w + 1) == Extend(s, Choose(k, w + 1));
    CompletionsSplit(s, w, k);
  }

  lemma CompletionsPushExact(s: seq<nat>, w: nat, n: nat)
    requires w < 5 && |s| + 1 == n
    ensures Completions(s, n, w) == [s + [w]] + Completions(s, n, w + 1)
  {
    assert Completions(s, n, w) == Extend(s, Choose(1, w));
    assert Completions(s, n, w + 1) == Extend(s, Choose(1, w + 1));
    CompletionsSplit(s, w, 1);
    assert Extend(s + [w], Choose(0, w + 1)) == [s + [w]] by {
      assert Choose(0, w + 1) == [[]];
      assert (s + [w]) + [] == s + [w];
    }
  }

  /** Pushing the cursor splits the completions of the stack into the
      pattern yielded now, the completions of the longer stack, and those
      that skip the cursor. */
  lemma CompletionsPush(s: seq<nat>, w: nat, n: nat)
    requires w < 5
    ensures Completions(s, n, w) == Yield(s, w, n) + (Completions(s + [w], n, w + 1) + Completions(s, n, w + 1))
  {
    if |s| + 1 < n {
      CompletionsPushShort(s, w, n);
      assert Yield(s, w, n) == [];
    } else if |s| + 1 == n {
      CompletionsPushExact(s, w, n);
      assert Completions(s + [w], n, w + 1) == [];
    } else {
      assert Completions(s, n, w) == [] && Completions(s + [w], n, w + 1) == [];
      assert Completions(s, n, w + 1) == [] && Yield(s, w, n) == [];
    }
  }

  /** Pushing the cursor: the first completion, if it already has length n,
      is yielded now; the rest are still pending. */
  lemma PendingPush(s: seq<nat>, w: nat, n: nat)
    requires w < 5
    ensures Pending(s, w, n) == Yield(s, w, n) + Pending(s + [w], w + 1, n)
  {
    var y, c1, c2, b := Yield(s, w, n), Completions(s + [w], n, w + 1), Completions(s, n, w + 1), Backtrack(s, n);
    CompletionsPush(s, w, n);
    BacktrackPush(s, w, n);
    assert Pending(s, w, n) == (y + (c1 + c2)) + b;
    assert Pending(s + [w], w + 1, n) == c1 + (c2 + b);
    Regroup(y, c1 + c2, b);
    Regroup(c1, c2, b);
  }

  /** Popping the stack when the cursor has run out. */
  lemma PendingPop(s: seq<nat>, n: nat)
    requires |s| > 0 && n > 0
    ensures Pending(s, 5, n) == Pending(s[..|s| - 1], s[|s| - 1] + 1, n)
  {
    assert Completions(s, n, 5) == [] by {
      if |s| < n {
        assert Choose(n - |s|, 5) == [];
      }
    }
  }

  /** 2 to the power e. */
  function Pow2(e: nat): (r: nat)
    ensures r >= 1
  {
    if e == 0 then 1 else 2 * Pow2(e - 1)
  }

  /** Work left on the stack: each entry x still has the subsets of x+1 .. 4
      to visit. */
  function StackWork(s: seq<nat>): nat
    requires OnHand(s)
  {
    if s == [] then 0
    else StackWork(s[..|s| - 1]) + Pow2(4 - s[|s| - 1]) - 1
  }

  /** Every entry is a hand position. */
  predicate OnHand(s: seq<nat>)
  {
    forall i :: 0 <= i < |s| ==> s[i] < 5
  }

  /** The generator's remaining work with stack `s` and cursor `w`. */
  function Work(s: seq<nat>, w: nat): nat
    requires w <= 5
    requires OnHand(s)
  {
    Pow2(5 - w) - 1 + StackWork(s)
  }

  /** A push does one unit of work. */
  lemma WorkPush(s: seq<nat>, w: nat)
    requires OnHand(s)
    requires w < 5
    ensures OnHand(s + [w])
    ensures Work(s + [w], w + 1) + 1 == Work(s, w)
  {
    var s' := s + [w];
    assert s'[..|s'| - 1] == s && s'[|s'| - 1] == w;
    assert Pow2(5 - w) == 2 * Pow2(4 - w);
  }

  /** A pop leaves the work unchanged and shortens the stack. */
  lemma WorkPop(s: seq<nat>)
    requires OnHand(s)
    requires |s| > 0
    ensures OnHand(s[..|s| - 1])
    ensures Work(s[..|s| - 1], s[|s| - 1] + 1) == Work(s, 5)
  {
  }

  /** One step of the generator keeps "yielded so far, then still pending"
      equal to the reference enumeration. */
  lemma StepPush(out: seq<seq<int>>, s: seq<nat>, w: nat, n: nat)
    requires w < 5
    requires out + Pending(s, w, n) == Choose(n, 0)
    ensures (out + Yield(s, w, n)) + Pending(s + [w], w + 1, n) == Choose(n, 0)
  {
    PendingPush(s, w, n);
    Regroup(out, Yield(s, w, n), Pending(s + [w], w + 1, n));
  }

  lemma StepPop(out: seq<seq<int>>, s: seq<nat>, n: nat)
    requires |s| > 0 && n > 0
    requires out + Pending(s, 5, n) == Choose(n, 0)
    ensures out + Pending(s[..|s| - 1], s[|s| - 1] + 1, n) == Choose(n, 0)
  {
    PendingPop(s, n);
  }

  /** Choosing more positions than remain gives nothing. */
  lemma ChooseBeyond(n: nat, lo: nat)
    requires lo <= 5 && n > 5 - lo
    ensures Choose(n, lo) == []
  {
    ChooseCount(n, lo);
    BinomialBeyond(5 - lo, n);
  }

  /** The generator's state: every stacked position is a hand position, the
      cursor is at most one past the last one, and the patterns yielded so far
      followed by those still pending make up the whole enumeration. */
  predicate GenState(n: nat, out: seq<seq<int>>, s: seq<nat>, w: nat)
  {
    w <= 5 && OnHand(s) && out + Pending(s, w, n) == Choose(n, 0)
  }

  /** The inner `for` taking the cursor: push it, yield when the stack has
      n positions, and move the cursor past it. */
  method Push(n: nat, out: seq<seq<int>>, s: seq<nat>, w: nat) returns (out': seq<seq<int>>, s': seq<nat>, w': nat)
    requires GenState(n, out, s, w) && w < 5
    ensures GenState(n, out', s', w')
    ensures s' == s + [w] && w' == w + 1
    ensures Work(s', w') < Work(s, w)
    ensures out' == if |s| + 1 == n then out + [s + [w]] else out
  {
    StepPush(out, s, w, n);
    WorkPush(s, w);
    out' := out;
    if |s| + 1 == n {
      out' := out + [s + [w]];
    }
    assert out' == out + Yield(s, w, n);
    s' := s + [w];
    w' := w + 1;
  }

  /** The `else` of the inner `for`, once the cursor has run out: the cursor
      moves past the last stacked position, which is popped. */
  method Pop(n: nat, out: seq<seq<int>>, s: seq<nat>) returns (s': seq<nat>, w': nat)
    requires n > 0 && GenState(n, out, s, 5) && |s| > 0
    ensures GenState(n, out, s', w')
    ensures s' == s[..|s| - 1] && w' == s[|s| - 1] + 1
    ensures Work(s', w') == Work(s, 5) && |s'| < |s|
  {
    StepPop(out, s, n);
    WorkPop(s);
    var last := s[|s| - 1];
    s' := s[..|s| - 1];
    w' := last + 1;
  }

  /** The generator loop of `discard(n)` for n > 0: a stack of positions
      and a cursor; each push that brings the stack to n positions yields a
      snapshot of it, and a cursor past the last position pops the stack. */
  method Generate(n: nat) returns (out: seq<seq<int>>)
    requires n > 0
    ensures out == Choose(n, 0)
  {
    out := [];
    ExtendNothing(Choose(n, 0));
    var s: seq<nat> := [];
    var w: nat := 0;
    while w < 5 || |s| > 0
      invariant GenState(n, out, s, w)
      decreases Work(s, w), |s|
    {
      if w < 5 {
        out, s, w := Push(n, out, s, w);
      } else {
        s, w := Pop(n, out, s);
      }
    }
    assert Pending([], 5, n) == [];
  }

  /** What the enumeration of n-position patterns holds: exactly the strictly
      increasing lists of n positions, in ascending order, C(5, n) of them. */
  lemma ChooseFacts(n: nat)
    requires n > 0
    ensures forall t :: t in Choose(n, 0) <==> |t| == n && Increasing(t) && Within(t, 0)
    ensures Ascending(Choose(n, 0))
    ensures n <= 5 ==> |Choose(n, 0)| == Binomial(5, n)
    ensures n > 5 ==> Choose(n, 0) == []
  {
    ChooseShape(n, 0);
    ChooseAscending(n, 0);
    forall t | |t| == n && Increasing(t) && Within(t, 0)
      ensures t in Choose(n, 0)
    {
      ChooseComplete(n, 0, t);
    }
    ChooseCount(n, 0);
    if n > 5 {
      ChooseBeyond(n, 0);
    }
  }

  /** `discard(n)`: the generator, run to completion, with each yielded list
      recorded as it is at the moment of the yield. It yields each strictly
      increasing list of n positions exactly once, in lexicographic order,
      C(5, n) of them; for n <= 0 it yields nothing. */
  method Discard(n: int) returns (out: seq<seq<int>>)
    ensures n <= 0 ==> out == []
    ensures n > 0 ==> out == Choose(n, 0)
    ensures forall t :: t in out ==> |t| == n && Increasing(t) && Within(t, 0)
    ensures forall t :: |t| == n > 0 && Increasing(t) && Within(t, 0) ==> t in out
    ensures Ascending(out)
    ensures 1 <= n <= 5 ==> |out| == Binomial(5, n)
    ensures n > 5 ==> out == []
  {
    if n <= 0 {
      return [];
    }
    out := Generate(n);
    ChooseFacts(n);
  }

}
