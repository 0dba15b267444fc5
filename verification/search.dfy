/** The psychic search: every way of discarding some of the five dealt cards
    and drawing replacements from the top of the deck, and the first of the
    strongest resulting hands. */
module Search {
  import opened Seqs
  import opened Cards
  import opened Hands
  import opened Discards

  /** `int(hand)`: the position of the hand's category in the rank order. */
  function Score(h: Hand): nat
    requires |h| == 5
  {
    Strength(Evaluate(h))
  }

  /** A discard pattern: at most five hand positions. */
  predicate Pattern(v: seq<int>)
  {
    |v| <= 5 && Within(v, 0)
  }

  /** The hand after the first k replacements of the inner loop of
      `best_combinations`: position v[n] receives deck card n, for n < k. */
  function Substitute(h: Hand, v: seq<int>, deck: seq<Card>, k: nat): (r: Hand)
    requires |h| == 5 && Pattern(v) && |deck| >= 5 && k <= |v|
    ensures |r| == 5
  {
    if k == 0 then h else Replace(Substitute(h, v, deck, k - 1), v[k - 1], deck[k - 1])
  }

  /** With distinct positions, each replaced position holds its deck card and
      every other position keeps the dealt card. */
  lemma {:induction false} SubstituteSpec(h: Hand, v: seq<int>, deck: seq<Card>, k: nat)
    requires |h| == 5 && Pattern(v) && |deck| >= 5 && k <= |v|
    requires Increasing(v)
    ensures forall n :: 0 <= n < k ==> Substitute(h, v, deck, k)[v[n]] == deck[n]
    ensures forall p :: 0 <= p < 5 && p !in v[..k] ==> Substitute(h, v, deck, k)[p] == h[p]
  {
    if k > 0 {
      SubstituteSpec(h, v, deck, k - 1);
      var r := Substitute(h, v, deck, k);
      forall n | 0 <= n < k
        ensures r[v[n]] == deck[n]
      {
        if n < k - 1 {
          assert v[n] < v[k - 1];
        }
      }
      forall p | 0 <= p < 5 && p !in v[..k]
        ensures r[p] == h[p]
      {
        assert v[..k] == v[..k - 1] + [v[k - 1]];
      }
    }
  }

  /** The hand `best_combinations` builds for one discard pattern: the first
      five cards with v's positions replaced, in order, from the next five. */
  function Candidate(cards: seq<Card>, v: seq<int>): (h: Hand)
    requires |cards| >= 10 && Pattern(v)
    ensures |h| == 5
  {
    Substitute(cards[..5], v, cards[5..], |v|)
  }

  /** The discard patterns in the order the search tries them: keep all five,
      then every pattern of one position, of two, ... of d, each group in
      lexicographic order. */
  function UpTo(d: nat): seq<seq<int>>
  {
    if d == 0 then Choose(0, 0) else UpTo(d - 1) + Choose(d, 0)
  }

  /** The patterns tried with at most d discards are exactly the strictly
      increasing lists of at most d hand positions. */
  lemma {:induction false} UpToMembers(d: nat, t: seq<int>)
    ensures t in UpTo(d) <==> |t| <= d && Increasing(t) && Within(t, 0)
  {
    assert t in Choose(d, 0) <==> |t| == d && Increasing(t) && Within(t, 0) by {
      ChooseShape(d, 0);
      if |t| == d && Increasing(t) && Within(t, 0) {
        ChooseComplete(d, 0, t);
      }
    }
    if d > 0 {
      assert t in UpTo(d) <==> t in UpTo(d - 1) || t in Choose(d, 0);
      UpToMembers(d - 1, t);
    }
  }

  lemma BinomialsOfFive()
    ensures Binomial(5, 1) == 5 && Binomial(5, 2) == 10 && Binomial(5, 3) == 10
    ensures Binomial(5, 4) == 5 && Binomial(5, 5) == 1
  {
  }

  /** Number of patterns of at most d positions out of five. */
  function BinomialSum(d: nat): nat
  {
    if d == 0 then 1 else BinomialSum(d - 1) + Binomial(5, d)
  }

  lemma {:induction false} UpToCount(d: nat)
    ensures |UpTo(d)| == BinomialSum(d)
    ensures |UpTo(d)| > 0 && UpTo(d)[0] == []
  {
    ChooseCount(d, 0);
    if d > 0 {
      UpToCount(d - 1);
    } else {
      assert UpTo(0) == [[]];
    }
  }

  /** With at most five discards the search tries thirty-two patterns. */
  lemma ThirtyTwoPatterns()
    ensures |UpTo(5)| == BinomialSum(5) == 32
  {
    UpToCount(5);
    BinomialsOfFive();
  }

  /** The innermost loop of `best_combinations`: a fresh copy of the dealt
      hand, then deck card n replaces position v[n], one after the other. */
  method ApplyPattern(cards: seq<Card>, v: seq<int>) returns (hand: Hand)
    requires |cards| >= 10 && Pattern(v)
    ensures hand == Candidate(cards, v)
  {
    var five := cards[..5];
    hand := five;
    var n := 0;
    while n < |v|
      invariant n <= |v|
      invariant hand == Substitute(five, v, cards[5..], n)
    {
      hand := Replace(hand, v[n], cards[5 + n]);
      n := n + 1;
    }
  }

  /** The order in which the search tries patterns: fewer discards first,
      and among patterns of one size the generator's lexicographic order. */
  predicate TriedBefore(u: seq<int>, v: seq<int>)
  {
    |u| < |v| || (|u| == |v| && LexLess(u, v))
  }

  /** `UpTo(d)` lists the patterns in the search's order: each one is tried
      before every one after it. */
  lemma {:induction false} UpToOrdered(d: nat)
    ensures forall i, j :: 0 <= i < j < |UpTo(d)| ==> TriedBefore(UpTo(d)[i], UpTo(d)[j])
  {
    if d > 0 {
      UpToOrdered(d - 1);
      ChooseAscending(d, 0);
      var a, b := UpTo(d - 1), Choose(d, 0);
      assert UpTo(d) == a + b;
      forall i, j | 0 <= i < j < |a + b|
        ensures TriedBefore((a + b)[i], (a + b)[j])
      {
        if j < |a| {
          assert (a + b)[i] == a[i] && (a + b)[j] == a[j];
        } else if i < |a| {
          assert (a + b)[i] == a[i] && (a + b)[j] == b[j - |a|];
          ShorterFirst(d, a[i], b[j - |a|]);
        } else {
          assert (a + b)[i] == b[i - |a|] && (a + b)[j] == b[j - |a|];
          SameSizeLex(d, b[i - |a|], b[j - |a|]);
        }
      }
    }
  }

  /** A pattern of the earlier rounds is tried before one of round d. */
  lemma ShorterFirst(d: nat, u: seq<int>, v: seq<int>)
    requires d > 0 && u in UpTo(d - 1) && v in Choose(d, 0)
    ensures TriedBefore(u, v)
  {
    UpToMembers(d - 1, u);
    ChooseShapeAt(d, 0, v);
  }

  /** Within round d, lexicographic order is the search's order. */
  lemma SameSizeLex(d: nat, u: seq<int>, v: seq<int>)
    requires u in Choose(d, 0) && v in Choose(d, 0) && LexLess(u, v)
    ensures TriedBefore(u, v)
  {
    ChooseShapeAt(d, 0, u);
    ChooseShapeAt(d, 0, v);
  }

  /** Any two patterns of at most d positions are both listed in `UpTo(d)`,
      and one is tried before the other exactly when it is listed first. */
  lemma UpToPositions(d: nat, u: seq<int>, v: seq<int>)
    requires |u| <= d && Increasing(u) && Within(u, 0)
    requires |v| <= d && Increasing(v) && Within(v, 0)
    ensures u in UpTo(d) && v in UpTo(d)
    ensures TriedBefore(u, v) <==> IndexOf(UpTo(d), u) < IndexOf(UpTo(d), v)
  {
    UpToMembers(d, u);
    UpToMembers(d, v);
    UpToOrdered(d);
    var i, j := IndexOf(UpTo(d), u), IndexOf(UpTo(d), v);
    if i < j {
      assert TriedBefore(UpTo(d)[i], UpTo(d)[j]);
    } else if i > j {
      assert TriedBefore(UpTo(d)[j], UpTo(d)[i]);
      TriedBeforeAsymmetric(v, u);
    } else {
      LexIrreflexive(u);
    }
  }

  lemma {:induction false} LexAsymmetric(a: seq<int>, b: seq<int>)
    requires LexLess(a, b)
    ensures !LexLess(b, a)
  {
    if |a| > 0 && a[0] == b[0] {
      LexAsymmetric(a[1..], b[1..]);
    }
  }

  /** No pattern is tried before itself, and of two patterns at most one is
      tried before the other. */
  lemma TriedBeforeAsymmetric(u: seq<int>, v: seq<int>)
    ensures TriedBefore(u, v) ==> !TriedBefore(v, u)
  {
    if |u| == |v| && LexLess(u, v) {
      LexAsymmetric(u, v);
    }
  }

  /** A pattern the search has reached: every pattern of fewer than d
      positions, and those of d positions listed in `seen`. */
  predicate Reached(v: seq<int>, d: nat, seen: seq<seq<int>>)
  {
    |v| < d || (|v| == d && v in seen)
  }

  /** A pattern the search may pick: a strictly increasing list of hand
      positions, at most five of them. */
  predicate Discardable(v: seq<int>)
  {
    Pattern(v) && Increasing(v)
  }

  /** The state of the search after reaching the patterns `Reached(_, d,
      seen)`: the best hand so far comes from a reached pattern `chosen`, no
      reached pattern gives a higher score, and every reached pattern tried
      before `chosen` gives a strictly lower one. */
  ghost predicate Searched(cards: seq<Card>, d: nat, seen: seq<seq<int>>, chosen: seq<int>, best: Hand)
    requires |cards| >= 10
  {
    Discardable(chosen) && Reached(chosen, d, seen) && best == Candidate(cards, chosen)
    && (forall v :: Discardable(v) && Reached(v, d, seen) ==> Score(Candidate(cards, v)) <= Score(best))
    && (forall v :: Discardable(v) && Reached(v, d, seen) && TriedBefore(v, chosen) ==>
          Score(Candidate(cards, v)) < Score(best))
  }

  /** Trying one more pattern `u`, later in the order than every reached one:
      it takes over exactly when its hand scores strictly higher. */
  lemma SearchStep(cards: seq<Card>, d: nat, seen: seq<seq<int>>, chosen: seq<int>, best: Hand, u: seq<int>)
    requires |cards| >= 10 && Discardable(u) && |u| == d
    requires Searched(cards, d, seen, chosen, best)
    requires forall w :: w in seen ==> TriedBefore(w, u)
    ensures Score(Candidate(cards, u)) > Score(best) ==> Searched(cards, d, seen + [u], u, Candidate(cards, u))
    ensures Score(Candidate(cards, u)) <= Score(best) ==> Searched(cards, d, seen + [u], chosen, best)
  {
    var seen' := seen + [u];
    assert forall v :: v in seen' <==> v in seen || v == u;
    assert TriedBefore(chosen, u);
    TriedBeforeAsymmetric(chosen, u);
    TriedBeforeAsymmetric(u, u);
  }

  /** The loop over the patterns of one size, given in the generator's
      order: each candidate hand replaces the best one only when it scores
      strictly higher. */
  method Scan(cards: seq<Card>, d: nat, vs: seq<seq<int>>, chosen: seq<int>, best: Hand)
      returns (chosen': seq<int>, best': Hand)
    requires |cards| >= 10
    requires forall i :: 0 <= i < |vs| ==> Discardable(vs[i]) && |vs[i]| == d
    requires Ascending(vs)
    requires Searched(cards, d, [], chosen, best)
    ensures Searched(cards, d, vs, chosen', best')
  {
    chosen', best' := chosen, best;
    var j := 0;
    while j < |vs|
      invariant j <= |vs|
      invariant Searched(cards, d, vs[..j], chosen', best')
    {
      var u := vs[j];
      forall w | w in vs[..j]
        ensures TriedBefore(w, u)
      {
        var k :| 0 <= k < j && vs[k] == w;
      }
      SearchStep(cards, d, vs[..j], chosen', best', u);
      var hand := ApplyPattern(cards, u);
      if Beats(Evaluate(hand), Evaluate(best')) {
        best' := hand;
        chosen' := u;
      }
      TakeOneMore(vs, j);
      j := j + 1;
    }
    assert vs[..|vs|] == vs;
  }

  /** One round of `best_combinations`: every pattern of d positions the
      generator yields, after which all patterns of at most d positions have
      been tried. */
  method Round(cards: seq<Card>, d: nat, chosen: seq<int>, best: Hand)
      returns (chosen': seq<int>, best': Hand)
    requires |cards| >= 10 && 1 <= d <= 5
    requires Searched(cards, d, [], chosen, best)
    ensures Searched(cards, d + 1, [], chosen', best')
  {
    var vs := Discard(d);
    YieldedShape(d, vs);
    chosen', best' := Scan(cards, d, vs, chosen, best);
    RoundComplete(cards, d, vs, chosen', best');
  }

  lemma YieldedShape(d: nat, vs: seq<seq<int>>)
    requires d <= 5
    requires forall t :: t in vs ==> |t| == d && Increasing(t) && Within(t, 0)
    ensures forall i :: 0 <= i < |vs| ==> Discardable(vs[i]) && |vs[i]| == d
  {
    forall i | 0 <= i < |vs|
      ensures Discardable(vs[i]) && |vs[i]| == d
    {
      assert vs[i] in vs;
    }
  }

  /** Once every strictly increasing pattern of d positions has been seen,
      the search has reached every pattern of at most d positions. */
  lemma RoundComplete(cards: seq<Card>, d: nat, vs: seq<seq<int>>, chosen: seq<int>, best: Hand)
    requires |cards| >= 10 && d > 0
    requires forall t :: |t| == d > 0 && Increasing(t) && Within(t, 0) ==> t in vs
    requires Searched(cards, d, vs, chosen, best)
    ensures Searched(cards, d + 1, [], chosen, best)
  {
    forall v | Discardable(v) && Reached(v, d + 1, [])
      ensures Reached(v, d, vs)
    {
      if |v| == d {
        assert |v| == d > 0 && Increasing(v) && Within(v, 0);
      }
    }
  }

  /** The hand `best` is the one pattern `c` gives, no pattern gives a hand
      of a higher rank, and every pattern tried before `c` gives a hand of a
      strictly lower one. */
  ghost predicate BestVia(cards: seq<Card>, best: Hand, c: seq<int>)
    requires |cards| >= 10
  {
    && Discardable(c) && best == Candidate(cards, c)
    && (forall v :: Discardable(v) ==> Score(Candidate(cards, v)) <= Score(best))
    && (forall v :: Discardable(v) && TriedBefore(v, c) ==> Score(Candidate(cards, v)) < Score(best))
  }

  /** What `best_combinations` promises about its result: the first hand of
      the highest rank in the search order. */
  ghost predicate FirstBest(cards: seq<Card>, best: Hand)
    requires |cards| >= 10
  {
    exists c :: BestVia(cards, best, c)
  }

  /** `best_combinations`: tries the dealt hand and then every discard
      pattern of one to five positions in the generator's order, and keeps
      the first hand of the highest rank. */
  method BestCombinations(cards: seq<Card>) returns (best: Hand)
    requires |cards| >= 10
    ensures |best| == 5
    ensures FirstBest(cards, best)
  {
    var five := cards[..5];
    best := five;
    var chosen: seq<int> := [];
    assert Candidate(cards, []) == five;
    forall v | Discardable(v) && Reached(v, 1, [])
      ensures v == []
    {
    }
    var d := 1;
    while d <= 5
      invariant 1 <= d <= 6
      invariant Searched(cards, d, [], chosen, best)
    {
      chosen, best := Round(cards, d, chosen, best);
      d := d + 1;
    }
    assert forall v :: Discardable(v) ==> Reached(v, 6, []);
    assert BestVia(cards, best, chosen);
  }

  /** Drawing never makes the hand worse: the result ranks at least as high
      as the five dealt cards, and as high as any hand one discard pattern
      can give. */
  lemma FirstBestDominates(cards: seq<Card>, best: Hand, v: seq<int>)
    requires |cards| >= 10 && FirstBest(cards, best)
    requires Increasing(v) && Within(v, 0) && |v| <= 5
    ensures |best| == 5
    ensures Score(best) >= Score(cards[..5])
    ensures Score(best) >= Score(Candidate(cards, v))
  {
    var c :| BestVia(cards, best, c);
    assert Candidate(cards, []) == cards[..5];
    assert Discardable([]) && Discardable(v);
  }

  /** The result is determined: two hands that both satisfy the promise
      are the same hand. */
  lemma FirstBestUnique(cards: seq<Card>, a: Hand, b: Hand)
    requires |cards| >= 10 && FirstBest(cards, a) && FirstBest(cards, b)
    ensures a == b
  {
    var ca :| BestVia(cards, a, ca);
    var cb :| BestVia(cards, b, cb);
    assert Score(a) == Score(b);
    NotTriedBefore(cards, b, cb, ca);
    NotTriedBefore(cards, a, ca, cb);
    TriedBeforeTotal(ca, cb);
  }

  /** A pattern whose hand ranks as high as the result is not tried before
      the pattern that gave the result. */
  lemma NotTriedBefore(cards: seq<Card>, best: Hand, c: seq<int>, v: seq<int>)
    requires |cards| >= 10 && BestVia(cards, best, c)
    requires Discardable(v) && Score(Candidate(cards, v)) >= Score(best)
    ensures !TriedBefore(v, c)
  {
  }

  /** Any two different patterns are ordered one way or the other. */
  lemma TriedBeforeTotal(u: seq<int>, v: seq<int>)
    ensures u != v ==> TriedBefore(u, v) || TriedBefore(v, u)
  {
    if u != v && |u| == |v| {
      LexTotal(u, v);
    }
  }

  lemma {:induction false} LexTotal(a: seq<int>, b: seq<int>)
    requires a != b && |a| == |b|
    ensures LexLess(a, b) || LexLess(b, a)
  {
    if a[0] == b[0] {
      assert a == [a[0]] + a[1..] && b == [b[0]] + b[1..];
      LexTotal(a[1..], b[1..]);
    }
  }
}
