/** The winning hand of each sample line and its category. */
module SampleHands {
  import opened Seqs
  import opened Cards
  import opened Hands
  import opened HandFacts
  import opened SampleLines

  /** The figures and the suits of a five-card hand, card by card. */
  lemma Columns(h: Hand)
    requires |h| == 5
    ensures Figures(h) == [FigureOnly(h[0]), FigureOnly(h[1]), FigureOnly(h[2]), FigureOnly(h[3]), FigureOnly(h[4])]
    ensures Suits(h) == [SuitOnly(h[0]), SuitOnly(h[1]), SuitOnly(h[2]), SuitOnly(h[3]), SuitOnly(h[4])]
  {
  }

  /** A five-card hand is classified from any descending arrangement of its
      figures and from whether its suits all agree. */
  lemma ClassifiedBy(h: Hand, suits: seq<int>, oneSuit: bool, f: seq<int>, r: HandRank)
    requires |h| == 5 && Suits(h) == suits
    requires oneSuit <==> suits[1] == suits[0] && suits[2] == suits[0] && suits[3] == suits[0] && suits[4] == suits[0]
    requires |f| == 5 && Descending(f) && multiset(Figures(h)) == multiset(f)
    requires Classify(if oneSuit then 1 else 2, f) == r
    ensures Evaluate(h) == r
  {
    DescendingUnique(SortDesc(Figures(h)), f);
    SuitCount(suits, oneSuit);
    OtherSuitCounts(DistinctCount(suits), f);
  }

  /** Five suits count as one exactly when they all agree. */
  lemma SuitCount(suits: seq<int>, oneSuit: bool)
    requires |suits| == 5
    requires oneSuit <==> suits[1] == suits[0] && suits[2] == suits[0] && suits[3] == suits[0] && suits[4] == suits[0]
    ensures DistinctCount(suits) == 1 <==> oneSuit
  {
    DistinctCountOne(suits);
    if !oneSuit {
      assert exists i :: 0 <= i < 5 && suits[i] != suits[0];
    }
  }

  /** The classification only asks whether the suit count is 1. */
  lemma OtherSuitCounts(n: nat, f: seq<int>)
    requires |f| == 5
    ensures n != 1 ==> Classify(n, f) == Classify(2, f)
  {
  }

  /** TH JH QH KH AH is a straight flush. */
  lemma StraightFlushHand(h: Hand)
    requires SameAs(h, [Card(0xA3), Card(0xB3), Card(0xC3), Card(0xD3), Card(0x13)])
    ensures Evaluate(h) == StraightFlush
  {
    StraightFlushColumns(h);
    StraightFlushRank([12, 11, 10, 9, 0]);
    ClassifiedBy(h, [2, 2, 2, 2, 2], true, [12, 11, 10, 9, 0], StraightFlush);
  }

  lemma StraightFlushColumns(h: Hand)
    requires SameAs(h, [Card(0xA3), Card(0xB3), Card(0xC3), Card(0xD3), Card(0x13)])
    ensures multiset(Figures(h)) == multiset([12, 11, 10, 9, 0]) && Suits(h) == [2, 2, 2, 2, 2]
  {
    Columns(h);
    assert Suits(h) == [2, 2, 2, 2, 2];
    assert Figures(h) == [9, 10, 11, 12, 0];
    StraightFlushFigures();
  }

  lemma StraightFlushFigures()
    ensures multiset([9, 10, 11, 12, 0]) == multiset([12, 11, 10, 9, 0])
  {
  }

  lemma StraightFlushRank(f: seq<int>)
    requires SameAs(f, [12, 11, 10, 9, 0])
    ensures Descending(f) && Classify(1, f) == StraightFlush
  {
  }

  /** 2D 3D 3H 3S 3C is four of a kind. */
  lemma FourOfAKindHand(h: Hand)
    requires SameAs(h, [Card(0x22), Card(0x32), Card(0x33), Card(0x34), Card(0x31)])
    ensures Evaluate(h) == FourOfAKind
  {
    FourOfAKindColumns(h);
    FourOfAKindRank([2, 2, 2, 2, 1]);
    ClassifiedBy(h, [1, 1, 2, 3, 0], false, [2, 2, 2, 2, 1], FourOfAKind);
  }

  lemma FourOfAKindColumns(h: Hand)
    requires SameAs(h, [Card(0x22), Card(0x32), Card(0x33), Card(0x34), Card(0x31)])
    ensures multiset(Figures(h)) == multiset([2, 2, 2, 2, 1]) && Suits(h) == [1, 1, 2, 3, 0]
  {
    Columns(h);
    assert Suits(h) == [1, 1, 2, 3, 0];
    assert Figures(h) == [1, 2, 2, 2, 2];
    FourOfAKindFigures();
  }

  lemma FourOfAKindFigures()
    ensures multiset([1, 2, 2, 2, 2]) == multiset([2, 2, 2, 2, 1])
  {
  }

  lemma FourOfAKindRank(f: seq<int>)
    requires SameAs(f, [2, 2, 2, 2, 1])
    ensures Descending(f) && Classify(2, f) == FourOfAKind
  {
  }

  /** 2H 2S 3H 3S 3C is a full house. */
  lemma FullHouseHand(h: Hand)
    requires SameAs(h, [Card(0x23), Card(0x24), Card(0x33), Card(0x34), Card(0x31)])
    ensures Evaluate(h) == FullHouse
  {
    FullHouseColumns(h);
    FullHouseRank([2, 2, 2, 1, 1]);
    ClassifiedBy(h, [2, 3, 2, 3, 0], false, [2, 2, 2, 1, 1], FullHouse);
  }

  lemma FullHouseColumns(h: Hand)
    requires SameAs(h, [Card(0x23), Card(0x24), Card(0x33), Card(0x34), Card(0x31)])
    ensures multiset(Figures(h)) == multiset([2, 2, 2, 1, 1]) && Suits(h) == [2, 3, 2, 3, 0]
  {
    Columns(h);
    assert Suits(h) == [2, 3, 2, 3, 0];
    assert Figures(h) == [1, 1, 2, 2, 2];
    FullHouseFigures();
  }

  lemma FullHouseFigures()
    ensures multiset([1, 1, 2, 2, 2]) == multiset([2, 2, 2, 1, 1])
  {
  }

  lemma FullHouseRank(f: seq<int>)
    requires SameAs(f, [2, 2, 2, 1, 1])
    ensures Descending(f) && Classify(2, f) == FullHouse
  {
  }

  /** 2H AH 5H 6H 7H is a flush. */
  lemma FlushHand(h: Hand)
    requires SameAs(h, [Card(0x23), Card(0x13), Card(0x53), Card(0x63), Card(0x73)])
    ensures Evaluate(h) == Flush
  {
    FlushColumns(h);
    FlushRank([6, 5, 4, 1, 0]);
    ClassifiedBy(h, [2, 2, 2, 2, 2], true, [6, 5, 4, 1, 0], Flush);
  }

  lemma FlushColumns(h: Hand)
    requires SameAs(h, [Card(0x23), Card(0x13), Card(0x53), Card(0x63), Card(0x73)])
    ensures multiset(Figures(h)) == multiset([6, 5, 4, 1, 0]) && Suits(h) == [2, 2, 2, 2, 2]
  {
    Columns(h);
    assert Suits(h) == [2, 2, 2, 2, 2];
    assert Figures(h) == [1, 0, 4, 5, 6];
    FlushFigures();
  }

  lemma FlushFigures()
    ensures multiset([1, 0, 4, 5, 6]) == multiset([6, 5, 4, 1, 0])
  {
  }

  lemma FlushRank(f: seq<int>)
    requires SameAs(f, [6, 5, 4, 1, 0])
    ensures Descending(f) && Classify(1, f) == Flush
  {
  }

  /** AC 2D 5S 3S 4D is a straight. */
  lemma StraightHand(h: Hand)
    requires SameAs(h, [Card(0x11), Card(0x22), Card(0x54), Card(0x34), Card(0x42)])
    ensures Evaluate(h) == Straight
  {
    StraightColumns(h);
    StraightRank([4, 3, 2, 1, 0]);
    ClassifiedBy(h, [0, 1, 3, 3, 1], false, [4, 3, 2, 1, 0], Straight);
  }

  lemma StraightColumns(h: Hand)
    requires SameAs(h, [Card(0x11), Card(0x22), Card(0x54), Card(0x34), Card(0x42)])
    ensures multiset(Figures(h)) == multiset([4, 3, 2, 1, 0]) && Suits(h) == [0, 1, 3, 3, 1]
  {
    Columns(h);
    assert Suits(h) == [0, 1, 3, 3, 1];
    assert Figures(h) == [0, 1, 4, 2, 3];
    StraightFigures();
  }

  lemma StraightFigures()
    ensures multiset([0, 1, 4, 2, 3]) == multiset([4, 3, 2, 1, 0])
  {
  }

  lemma StraightRank(f: seq<int>)
    requires SameAs(f, [4, 3, 2, 1, 0])
    ensures Descending(f) && Classify(2, f) == Straight
  {
  }

  /** KC 2C 2H TC 2D is three of a kind. */
  lemma ThreeOfAKindHand(h: Hand)
    requires SameAs(h, [Card(0xD1), Card(0x21), Card(0x23), Card(0xA1), Card(0x22)])
    ensures Evaluate(h) == ThreeOfAKind
  {
    ThreeOfAKindColumns(h);
    ThreeOfAKindRank([12, 9, 1, 1, 1]);
    ClassifiedBy(h, [0, 0, 2, 0, 1], false, [12, 9, 1, 1, 1], ThreeOfAKind);
  }

  lemma ThreeOfAKindColumns(h: Hand)
    requires SameAs(h, [Card(0xD1), Card(0x21), Card(0x23), Card(0xA1), Card(0x22)])
    ensures multiset(Figures(h)) == multiset([12, 9, 1, 1, 1]) && Suits(h) == [0, 0, 2, 0, 1]
  {
    Columns(h);
    assert Suits(h) == [0, 0, 2, 0, 1];
    assert Figures(h) == [12, 1, 1, 9, 1];
    ThreeOfAKindFigures();
  }

  lemma ThreeOfAKindFigures()
    ensures multiset([12, 1, 1, 9, 1]) == multiset([12, 9, 1, 1, 1])
  {
  }

  lemma ThreeOfAKindRank(f: seq<int>)
    requires SameAs(f, [12, 9, 1, 1, 1])
    ensures Descending(f) && Classify(2, f) == ThreeOfAKind
  {
  }

  /** QH KS JS JD KD is two pairs. */
  lemma TwoPairsHand(h: Hand)
    requires SameAs(h, [Card(0xC3), Card(0xD4), Card(0xB4), Card(0xB2), Card(0xD2)])
    ensures Evaluate(h) == TwoPairs
  {
    TwoPairsColumns(h);
    TwoPairsRank([12, 12, 11, 10, 10]);
    ClassifiedBy(h, [2, 3, 3, 1, 1], false, [12, 12, 11, 10, 10], TwoPairs);
  }

  lemma TwoPairsColumns(h: Hand)
    requires SameAs(h, [Card(0xC3), Card(0xD4), Card(0xB4), Card(0xB2), Card(0xD2)])
    ensures multiset(Figures(h)) == multiset([12, 12, 11, 10, 10]) && Suits(h) == [2, 3, 3, 1, 1]
  {
    Columns(h);
    assert Suits(h) == [2, 3, 3, 1, 1];
    assert Figures(h) == [11, 12, 10, 10, 12];
    TwoPairsFigures();
  }

  lemma TwoPairsFigures()
    ensures multiset([11, 12, 10, 10, 12]) == multiset([12, 12, 11, 10, 10])
  {
  }

  lemma TwoPairsRank(f: seq<int>)
    requires SameAs(f, [12, 12, 11, 10, 10])
    ensures Descending(f) && Classify(2, f) == TwoPairs
  {
    DistinctSorted(f);
  }

  /** 2H 9C 8C 2D 7C is one pair. */
  lemma OnePairHand(h: Hand)
    requires SameAs(h, [Card(0x23), Card(0x91), Card(0x81), Card(0x22), Card(0x71)])
    ensures Evaluate(h) == OnePair
  {
    OnePairColumns(h);
    OnePairRank([8, 7, 6, 1, 1]);
    ClassifiedBy(h, [2, 0, 0, 1, 0], false, [8, 7, 6, 1, 1], OnePair);
  }

  lemma OnePairColumns(h: Hand)
    requires SameAs(h, [Card(0x23), Card(0x91), Card(0x81), Card(0x22), Card(0x71)])
    ensures multiset(Figures(h)) == multiset([8, 7, 6, 1, 1]) && Suits(h) == [2, 0, 0, 1, 0]
  {
    Columns(h);
    assert Suits(h) == [2, 0, 0, 1, 0];
    assert Figures(h) == [1, 8, 7, 1, 6];
    OnePairFigures();
  }

  lemma OnePairFigures()
    ensures multiset([1, 8, 7, 1, 6]) == multiset([8, 7, 6, 1, 1])
  {
  }

  lemma OnePairRank(f: seq<int>)
    requires SameAs(f, [8, 7, 6, 1, 1])
    ensures Descending(f) && Classify(2, f) == OnePair
  {
    DistinctSorted(f);
  }

  /** 3D 5S 2H QD TD is only a highest card. */
  lemma HighestCardHand(h: Hand)
    requires SameAs(h, [Card(0x32), Card(0x54), Card(0x23), Card(0xC2), Card(0xA2)])
    ensures Evaluate(h) == HighestCard
  {
    HighestCardColumns(h);
    HighestCardRank([11, 9, 4, 2, 1]);
    ClassifiedBy(h, [1, 3, 2, 1, 1], false, [11, 9, 4, 2, 1], HighestCard);
  }

  lemma HighestCardColumns(h: Hand)
    requires SameAs(h, [Card(0x32), Card(0x54), Card(0x23), Card(0xC2), Card(0xA2)])
    ensures multiset(Figures(h)) == multiset([11, 9, 4, 2, 1]) && Suits(h) == [1, 3, 2, 1, 1]
  {
    Columns(h);
    assert Suits(h) == [1, 3, 2, 1, 1];
    assert Figures(h) == [2, 4, 1, 11, 9];
    HighestCardFigures();
  }

  lemma HighestCardFigures()
    ensures multiset([2, 4, 1, 11, 9]) == multiset([11, 9, 4, 2, 1])
  {
  }

  lemma HighestCardRank(f: seq<int>)
    requires SameAs(f, [11, 9, 4, 2, 1])
    ensures Descending(f) && Classify(2, f) == HighestCard
  {
    DistinctSorted(f);
  }
}
