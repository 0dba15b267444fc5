/** What the classification means: an order-free reference definition of the
    nine categories, in terms of how often each figure occurs and whether all
    suits agree, and the proof that `Evaluate` computes it. */
module HandFacts {
  import opened Seqs
  import opened Cards
  import opened Hands

  /** All cards of the hand share the suit of the first. */
  predicate OneSuit(h: Hand)
  {
    forall i :: 0 <= i < |h| ==> SuitOnly(h[i]) == SuitOnly(h[0])
  }

  /** The figures k, k+1, k+2, k+3, k+4. */
  function Run(k: int): multiset<int>
  {
    multiset([k + 4, k + 3, k + 2, k + 1, k])
  }

  /** Ten, jack, queen, king and the ace, which is figure 0. */
  const TEN_TO_ACE: multiset<int> := multiset([12, 11, 10, 9, 0])

  /** Five consecutive figures, or ten to ace. */
  ghost predicate StraightFigures(m: multiset<int>)
  {
    (exists k :: m == Run(k)) || m == TEN_TO_ACE
  }

  /** Some figure occurs exactly n times. */
  ghost predicate HasKind(m: multiset<int>, n: nat)
  {
    exists x :: m[x] == n
  }

  /** Some figure occurs at least four times. */
  ghost predicate HasFour(m: multiset<int>)
  {
    exists x :: m[x] >= 4
  }

  /** Two different figures occur exactly twice each. */
  ghost predicate HasTwoPairs(m: multiset<int>)
  {
    exists x, y :: x != y && m[x] == 2 && m[y] == 2
  }

  /** The reference classification of a five-card hand. */
  ghost function Category(h: Hand): HandRank
    requires |h| == 5
  {
    var m := multiset(Figures(h));
    if OneSuit(h) then
      if StraightFigures(m) then StraightFlush else Flush
    else if HasFour(m) then FourOfAKind
    else if HasKind(m, 3) && HasKind(m, 2) then FullHouse
    else if StraightFigures(m) then Straight
    else if HasKind(m, 3) then ThreeOfAKind
    else if HasTwoPairs(m) then TwoPairs
    else if HasKind(m, 2) then OnePair
    else HighestCard
  }

  /** Each figure is one above the next. */
  predicate Consecutive(f: seq<int>)
  {
    forall i :: 1 <= i < |f| ==> f[i - 1] == f[i] + 1
  }

  /** `is_straight` holds exactly for five consecutive descending figures and
      for king, queen, jack, ten followed by the ace (figure 0). The ordinary
      consecutive case already covers five-four-three-two-ace. */
  lemma IsStraightIff(f: seq<int>)
    requires |f| == 5
    ensures IsStraight(f) <==> Consecutive(f) || f == [12, 11, 10, 9, 0]
  {
    var b1, b2, b3, b4 := f[0] != f[1] + 1, f[1] != f[2] + 1, f[2] != f[3] + 1, f[3] != f[4] + 1;
    var p1: seq<nat>, p2: seq<nat>, p3: seq<nat>, p4: seq<nat> :=
      if b1 then [1] else [], if b2 then [2] else [], if b3 then [3] else [], if b4 then [4] else [];
    assert Stops(f, 4) == p4;
    assert Stops(f, 1) == p1 + (p2 + (p3 + p4));
    assert Stops(f, 1) == [] <==> !b1 && !b2 && !b3 && !b4;
    assert Stops(f, 1) == [4] <==> !b1 && !b2 && !b3 && b4 by {
      if b1 {
        assert Stops(f, 1)[0] == 1;
      } else if b2 {
        assert Stops(f, 1)[0] == 2;
      } else if b3 {
        assert Stops(f, 1)[0] == 3;
      }
    }
    assert Consecutive(f) <==> !b1 && !b2 && !b3 && !b4 by {
      if !b1 && !b2 && !b3 && !b4 {
        forall i | 1 <= i < |f|
          ensures f[i - 1] == f[i] + 1
        {
          assert i == 1 || i == 2 || i == 3 || i == 4;
        }
      }
    }
    if !b1 && !b2 && !b3 && f[0] == 12 && f[4] == 0 {
      assert f == [12, 11, 10, 9, 0];
    }
  }

  lemma MultisetOfFive(f: seq<int>)
    requires |f| == 5
    ensures multiset(f) == multiset{f[0], f[1], f[2], f[3], f[4]}
  {
    assert f == [f[0], f[1], f[2], f[3], f[4]];
  }

  lemma DescendingFive(f: seq<int>)
    requires |f| == 5 && Descending(f)
    ensures f[0] >= f[1] >= f[2] >= f[3] >= f[4]
  {
  }

  lemma ConsecutiveRun(f: seq<int>)
    requires |f| == 5 && Consecutive(f)
    ensures multiset(f) == Run(f[4])
  {
    assert f[0] == f[1] + 1 && f[1] == f[2] + 1 && f[2] == f[3] + 1 && f[3] == f[4] + 1;
    assert f == [f[4] + 4, f[4] + 3, f[4] + 2, f[4] + 1, f[4]];
  }

  lemma RunSorted(f: seq<int>, k: int)
    requires Descending(f) && multiset(f) == Run(k)
    ensures f == [k + 4, k + 3, k + 2, k + 1, k]
    ensures Consecutive(f)
  {
    var g := [k + 4, k + 3, k + 2, k + 1, k];
    assert Descending(g);
    DescendingUnique(f, g);
    forall i | 1 <= i < |f|
      ensures f[i - 1] == f[i] + 1
    {
      assert i == 1 || i == 2 || i == 3 || i == 4;
    }
  }

  lemma TenToAceSorted(f: seq<int>)
    requires Descending(f) && multiset(f) == TEN_TO_ACE
    ensures f == [12, 11, 10, 9, 0]
  {
    var g := [12, 11, 10, 9, 0];
    assert Descending(g);
    DescendingUnique(f, g);
  }

  lemma StraightFiguresSorted(f: seq<int>)
    requires |f| == 5 && Descending(f) && StraightFigures(multiset(f))
    ensures Consecutive(f) || f == [12, 11, 10, 9, 0]
  {
    if multiset(f) == TEN_TO_ACE {
      TenToAceSorted(f);
    } else {
      var k :| multiset(f) == Run(k);
      RunSorted(f, k);
    }
  }

  lemma SortedStraightFigures(f: seq<int>)
    requires |f| == 5 && (Consecutive(f) || f == [12, 11, 10, 9, 0])
    ensures StraightFigures(multiset(f))
  {
    if Consecutive(f) {
      ConsecutiveRun(f);
    }
  }

  /** On descending figures, `is_straight` recognises exactly the straights. */
  lemma StraightSorted(f: seq<int>)
    requires |f| == 5 && Descending(f)
    ensures IsStraight(f) <==> StraightFigures(multiset(f))
  {
    IsStraightIff(f);
    if StraightFigures(multiset(f)) {
      StraightFiguresSorted(f);
    }
    if Consecutive(f) || f == [12, 11, 10, 9, 0] {
      SortedStraightFigures(f);
    }
  }

  /** On descending figures, the four-of-a-kind test finds exactly the hands
      where some figure occurs four times or more. */
  lemma FourSorted(f: seq<int>)
    requires |f| == 5 && Descending(f)
    ensures f[0] == f[3] || f[1] == f[4] <==> HasFour(multiset(f))
  {
    MultisetOfFive(f);
    DescendingFive(f);
    if f[0] == f[3] || f[1] == f[4] {
      assert multiset(f)[f[1]] >= 4;
    }
  }

  /** Once four of a kind is ruled out, the two full-house tests find exactly
      the hands with one figure three times and another twice. */
  lemma FullHouseSorted(f: seq<int>)
    requires |f| == 5 && Descending(f)
    requires !(f[0] == f[3] || f[1] == f[4])
    ensures (f[0] == f[2] && f[3] == f[4]) || (f[0] == f[1] && f[2] == f[4])
        <==> HasKind(multiset(f), 3) && HasKind(multiset(f), 2)
  {
    MultisetOfFive(f);
    DescendingFive(f);
    if f[0] == f[2] && f[3] == f[4] {
      assert multiset(f)[f[0]] == 3 && multiset(f)[f[4]] == 2;
    }
    if f[0] == f[1] && f[2] == f[4] {
      assert multiset(f)[f[4]] == 3 && multiset(f)[f[0]] == 2;
    }
  }

  /** Once four of a kind is ruled out, the three-of-a-kind test finds exactly
      the hands where some figure occurs three times. */
  lemma ThreeSorted(f: seq<int>)
    requires |f| == 5 && Descending(f)
    requires !(f[0] == f[3] || f[1] == f[4])
    ensures f[0] == f[2] || f[1] == f[3] || f[2] == f[4] <==> HasKind(multiset(f), 3)
  {
    MultisetOfFive(f);
    DescendingFive(f);
    if f[0] == f[2] {
      assert multiset(f)[f[0]] == 3;
    } else if f[1] == f[3] {
      assert multiset(f)[f[1]] == 3;
    } else if f[2] == f[4] {
      assert multiset(f)[f[2]] == 3;
    }
  }

  /** In a descending sequence the head recurs in the tail exactly when the
      second element equals it; dropping the head keeps the order. */
  lemma DistinctStep(s: seq<int>)
    requires |s| >= 2 && Descending(s)
    ensures Descending(s[1..])
    ensures DistinctCount(s) == (if s[0] == s[1] then 0 else 1) + DistinctCount(s[1..])
  {
    DescendingTail(s);
    if s[0] in s[1..] {
      var k :| 0 <= k < |s[1..]| && s[1..][k] == s[0];
      assert s[0] >= s[1] >= s[k + 1];
    }
  }

  /** On descending figures, the number of distinct figures is one more than
      the number of places where a figure differs from the next. */
  lemma DistinctSorted(f: seq<int>)
    requires |f| == 5 && Descending(f)
    ensures DistinctCount(f) == 1 + (if f[0] != f[1] then 1 else 0) + (if f[1] != f[2] then 1 else 0)
                                  + (if f[2] != f[3] then 1 else 0) + (if f[3] != f[4] then 1 else 0)
  {
    var t1, t2, t3, t4 := f[1..], f[2..], f[3..], f[4..];
    assert t1[1..] == t2 && t2[1..] == t3 && t3[1..] == t4;
    DistinctStep(f);
    DistinctStep(t1);
    DistinctStep(t2);
    DistinctStep(t3);
    assert DistinctCount(t4) == 1 by {
      assert t4 == [f[4]];
      assert t4[1..] == [];
    }
  }

  /** With no figure three times, two distinct figures give two pairs, four
      give one pair, and five give nothing. */
  lemma PairsSorted(f: seq<int>)
    requires |f| == 5 && Descending(f)
    requires !(f[0] == f[2] || f[1] == f[3] || f[2] == f[4])
    ensures DistinctCount(f) == 3 <==> HasTwoPairs(multiset(f))
    ensures DistinctCount(f) == 4 <==> HasKind(multiset(f), 2) && !HasTwoPairs(multiset(f))
    ensures DistinctCount(f) == 5 <==> !HasKind(multiset(f), 2)
    ensures 3 <= DistinctCount(f)
  {
    MultisetOfFive(f);
    DescendingFive(f);
    DistinctSorted(f);
    var m := multiset(f);
    if f[0] == f[1] && f[2] == f[3] {
      assert m[f[0]] == 2 && m[f[2]] == 2;
    }
    if f[0] == f[1] && f[3] == f[4] {
      assert m[f[0]] == 2 && m[f[3]] == 2;
    }
    if f[1] == f[2] && f[3] == f[4] {
      assert m[f[1]] == 2 && m[f[3]] == 2;
    }
    if f[0] == f[1] {
      assert m[f[0]] == 2;
    }
    if f[1] == f[2] {
      assert m[f[1]] == 2;
    }
    if f[2] == f[3] {
      assert m[f[2]] == 2;
    }
    if f[3] == f[4] {
      assert m[f[3]] == 2;
    }
  }

  /** The suit count the program compares with 1 is 1 exactly when all five
      cards share a suit. */
  lemma OneSuitIff(h: Hand)
    requires |h| == 5
    ensures DistinctCount(Suits(h)) == 1 <==> OneSuit(h)
  {
    DistinctCountOne(Suits(h));
    assert forall i :: 0 <= i < |h| ==> Suits(h)[i] == SuitOnly(h[i]);
  }

  /** The classification is the reference one: suits decide flushes first,
      then four of a kind, full house, straight, three of a kind, two pairs,
      one pair and highest card, each by how often the figures occur. */
  lemma EvaluateMatchesCategory(h: Hand)
    requires |h| == 5
    ensures Evaluate(h) == Category(h)
  {
    var f := SortDesc(Figures(h));
    OneSuitIff(h);
    StraightSorted(f);
    FourSorted(f);
    if !(f[0] == f[3] || f[1] == f[4]) {
      FullHouseSorted(f);
      ThreeSorted(f);
      if !(f[0] == f[2] || f[1] == f[3] || f[2] == f[4]) {
        PairsSorted(f);
      }
    }
  }

  /** Five cards of one suit give a flush or a straight flush, and no other
      hand gives either; the flush is straight exactly when its figures are. */
  lemma FlushIffOneSuit(h: Hand)
    requires |h| == 5
    ensures Evaluate(h) == Flush || Evaluate(h) == StraightFlush <==> OneSuit(h)
    ensures Evaluate(h) == StraightFlush <==> OneSuit(h) && StraightFigures(multiset(Figures(h)))
  {
    var f := SortDesc(Figures(h));
    var suits := DistinctCount(Suits(h));
    assert Evaluate(h) == Classify(suits, f);
    ClassifyFlush(suits, f);
    OneSuitIff(h);
    StraightSorted(f);
  }

  /** Only the first test of the decision chain yields the two flush categories. */
  lemma ClassifyFlush(suits: nat, f: seq<int>)
    requires |f| == 5
    ensures Classify(suits, f) == Flush || Classify(suits, f) == StraightFlush <==> suits == 1
    ensures Classify(suits, f) == StraightFlush <==> suits == 1 && IsStraight(f)
  {
  }

  lemma SortedFiguresPermutation(a: Hand, b: Hand)
    requires multiset(a) == multiset(b)
    ensures SortDesc(Figures(a)) == SortDesc(Figures(b))
  {
    MapPermutation(FigureOnly, a, b);
    DescendingUnique(SortDesc(Figures(a)), SortDesc(Figures(b)));
  }

  lemma SuitSetPermutation(a: Hand, b: Hand)
    requires multiset(a) == multiset(b)
    ensures Elems(Suits(a)) == Elems(Suits(b))
  {
    MapPermutation(SuitOnly, a, b);
    forall x
      ensures x in Suits(a) <==> x in Suits(b)
    {
      assert x in Suits(a) <==> x in multiset(Suits(a));
      assert x in Suits(b) <==> x in multiset(Suits(b));
    }
  }

  /** The classification ignores the order of the cards. */
  lemma EvaluatePermutation(a: Hand, b: Hand)
    requires |a| == 5 && multiset(a) == multiset(b)
    ensures |b| == 5 && Evaluate(a) == Evaluate(b)
  {
    assert |b| == 5 by {
      assert |multiset(a)| == |multiset(b)|;
    }
    SortedFiguresPermutation(a, b);
    SuitSetPermutation(a, b);
  }
}
