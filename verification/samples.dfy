/** The nine sample lines of the program's description and of its self-test,
    each with the category the expected output gives for it. For every line,
    the discard pattern named here gives a hand of exactly that category, so
    the search reaches at least that category. For the straight-flush line,
    which reaches the top category, the whole pipeline prints that category. */
module Samples {
  import opened Optional
  import opened Cards
  import opened Hands
  import opened Search
  import opened Lines
  import opened Process
  import opened SampleLines
  import opened SampleHands

  /** The cards of a line of tokens written with single spaces, as the input gives it. */
  function Deal(ts: seq<string>): seq<Card>
  {
    Convert(Join(ts))
  }

  /** The discard pattern `v` turns the ten `cards` into the hand `h`: each
      replaced position holds the deck card of its turn, every other position
      the dealt card. */
  predicate Draws(cards: seq<Card>, v: seq<int>, h: Hand)
  {
    |cards| == 10 && Discardable(v) && |h| == 5 &&
    (forall n :: 0 <= n < |v| ==> h[v[n]] == cards[5 + n]) &&
    (forall p :: 0 <= p < 5 && p !in v ==> h[p] == cards[p])
  }

  /** On a line of ten well-formed tokens encoding `cards`, the pattern `v`
      gives the hand `h` it draws from those cards. */
  lemma Drawn(ts: seq<string>, cards: seq<Card>, v: seq<int>, h: Hand)
    requires (forall i :: 0 <= i < |ts| ==> WellFormed(ts[i])) && Reads(ts, cards)
    requires Draws(cards, v, h)
    ensures |Deal(ts)| == 10 && SameAs(Candidate(Deal(ts), v), h)
  {
    DealReads(ts, cards);
    SubstituteSpec(cards[..5], v, cards[5..], |v|);
    assert v[..|v|] == v;
    forall p | 0 <= p < 5
      ensures Candidate(cards, v)[p] == h[p]
    {
      if p in v {
        var n :| 0 <= n < |v| && v[n] == p;
      }
    }
  }

  /** What holds of the tokens of a sample line holds of any copy `ts` of it. */
  lemma Dealt(ts: seq<string>, line: seq<string>, cards: seq<Card>, v: seq<int>, h: Hand)
    requires SameAs(ts, line)
    requires forall i :: 0 <= i < |line| ==> WellFormed(line[i])
    requires Reads(line, cards) && Draws(cards, v, h)
    ensures |Deal(ts)| == 10 && SameAs(Candidate(Deal(ts), v), h)
  {
    assert Reads(ts, cards);
    Drawn(ts, cards, v, h);
  }

  /** A line of ten well-formed tokens deals the cards they encode. */
  lemma DealReads(ts: seq<string>, cards: seq<Card>)
    requires (forall i :: 0 <= i < |ts| ==> WellFormed(ts[i])) && Reads(ts, cards)
    ensures Deal(ts) == cards
  {
    ConvertJoin(ts);
    forall i | 0 <= i < 10
      ensures Deal(ts)[i] == cards[i]
    {
      assert Some(Deal(ts)[i]) == Parse(ts[i]);
      assert i == 0 || i == 1 || i == 2 || i == 3 || i == 4 || i == 5 || i == 6 || i == 7 || i == 8 || i == 9;
    }
  }

  /** When some pattern gives a straight flush, the search's result is a
      straight flush too, so that is the name printed for it. */
  lemma TopReached(cards: seq<Card>, v: seq<int>, out: string)
    requires |cards| >= 10 && Discardable(v)
    requires Evaluate(Candidate(cards, v)) == StraightFlush
    requires exists best :: |best| == 5 && FirstBest(cards, best) && out == Name(Evaluate(best))
    ensures out == "straight-flush"
  {
    var best :| |best| == 5 && FirstBest(cards, best) && out == Name(Evaluate(best));
    FirstBestDominates(cards, best, v);
    StrengthAscending();
  }

  /** The straight-flush line: the program prints "straight-flush", since no
      hand ranks higher than the one `StraightFlushSample` exhibits. */
  method StraightFlushPrinted(ts: seq<string>) returns (out: string)
    requires TokensOf(ts, STRAIGHT_FLUSH_LINE)
    ensures out == "straight-flush"
  {
    StraightFlushSample(ts);
    out := ReportAsWritten(Join(ts));
    StraightFlushDraws();
    TopReached(Deal(ts), [2, 3, 4], out);
  }

  /** Ten, jack, queen, king and ace of hearts: the first two cards are kept and three are drawn. */
  lemma StraightFlushSample(ts: seq<string>)
    requires TokensOf(ts, STRAIGHT_FLUSH_LINE)
    ensures |Deal(ts)| == 10
    ensures Evaluate(Candidate(Deal(ts), [2, 3, 4])) == StraightFlush
  {
    StraightFlushTokens();
    StraightFlushCards();
    StraightFlushDraws();
    Dealt(ts, STRAIGHT_FLUSH_LINE, [Card(0xA3), Card(0xB3), Card(0xC1), Card(0xC2), Card(0xC4), Card(0xC3), Card(0xD3), Card(0x13), Card(0x24), Card(0x64)], [2, 3, 4], [Card(0xA3), Card(0xB3), Card(0xC3), Card(0xD3), Card(0x13)]);
    StraightFlushHand(Candidate(Deal(ts), [2, 3, 4]));
  }

  /** The pattern of the straight-flush line draws its winning hand from the line's cards. */
  lemma StraightFlushDraws()
    ensures Draws([Card(0xA3), Card(0xB3), Card(0xC1), Card(0xC2), Card(0xC4), Card(0xC3), Card(0xD3), Card(0x13), Card(0x24), Card(0x64)], [2, 3, 4], [Card(0xA3), Card(0xB3), Card(0xC3), Card(0xD3), Card(0x13)])
  {
  }

  /** Four threes: the two twos are replaced by the two and the three of diamonds. */
  lemma FourOfAKindSample(ts: seq<string>)
    requires TokensOf(ts, FOUR_OF_A_KIND_LINE)
    ensures |Deal(ts)| == 10
    ensures Evaluate(Candidate(Deal(ts), [0, 1])) == FourOfAKind
  {
    FourOfAKindTokens();
    FourOfAKindCards();
    FourOfAKindDraws();
    Dealt(ts, FOUR_OF_A_KIND_LINE, [Card(0x23), Card(0x24), Card(0x33), Card(0x34), Card(0x31), Card(0x22), Card(0x32), Card(0x61), Card(0x91), Card(0xA3)], [0, 1], [Card(0x22), Card(0x32), Card(0x33), Card(0x34), Card(0x31)]);
    FourOfAKindHand(Candidate(Deal(ts), [0, 1]));
  }

  /** The pattern of the four-of-a-kind line draws its winning hand from the line's cards. */
  lemma FourOfAKindDraws()
    ensures Draws([Card(0x23), Card(0x24), Card(0x33), Card(0x34), Card(0x31), Card(0x22), Card(0x32), Card(0x61), Card(0x91), Card(0xA3)], [0, 1], [Card(0x22), Card(0x32), Card(0x33), Card(0x34), Card(0x31)])
  {
  }

  /** The dealt hand, kept whole, is already a full house. */
  lemma FullHouseSample(ts: seq<string>)
    requires TokensOf(ts, FULL_HOUSE_LINE)
    ensures |Deal(ts)| == 10
    ensures Evaluate(Candidate(Deal(ts), [])) == FullHouse
  {
    FullHouseTokens();
    FullHouseCards();
    FullHouseDraws();
    Dealt(ts, FULL_HOUSE_LINE, [Card(0x23), Card(0x24), Card(0x33), Card(0x34), Card(0x31), Card(0x22), Card(0x91), Card(0x32), Card(0x61), Card(0xA3)], [], [Card(0x23), Card(0x24), Card(0x33), Card(0x34), Card(0x31)]);
    FullHouseHand(Candidate(Deal(ts), []));
  }

  /** The pattern of the full-house line draws its winning hand from the line's cards. */
  lemma FullHouseDraws()
    ensures Draws([Card(0x23), Card(0x24), Card(0x33), Card(0x34), Card(0x31), Card(0x22), Card(0x91), Card(0x32), Card(0x61), Card(0xA3)], [], [Card(0x23), Card(0x24), Card(0x33), Card(0x34), Card(0x31)])
  {
  }

  /** The ace of diamonds and the ace of clubs are replaced by the ace and the six of hearts. */
  lemma FlushSample(ts: seq<string>)
    requires TokensOf(ts, FLUSH_LINE)
    ensures |Deal(ts)| == 10
    ensures Evaluate(Candidate(Deal(ts), [1, 3])) == Flush
  {
    FlushTokens();
    FlushCards();
    FlushDraws();
    Dealt(ts, FLUSH_LINE, [Card(0x23), Card(0x12), Card(0x53), Card(0x11), Card(0x73), Card(0x13), Card(0x63), Card(0x93), Card(0x43), Card(0x31)], [1, 3], [Card(0x23), Card(0x13), Card(0x53), Card(0x63), Card(0x73)]);
    FlushHand(Candidate(Deal(ts), [1, 3]));
  }

  /** The pattern of the flush line draws its winning hand from the line's cards. */
  lemma FlushDraws()
    ensures Draws([Card(0x23), Card(0x12), Card(0x53), Card(0x11), Card(0x73), Card(0x13), Card(0x63), Card(0x93), Card(0x43), Card(0x31)], [1, 3], [Card(0x23), Card(0x13), Card(0x53), Card(0x63), Card(0x73)])
  {
  }

  /** Ace to five, the ace low: the nine and the king are replaced. */
  lemma StraightSample(ts: seq<string>)
    requires TokensOf(ts, STRAIGHT_LINE)
    ensures |Deal(ts)| == 10
    ensures Evaluate(Candidate(Deal(ts), [2, 4])) == Straight
  {
    StraightTokens();
    StraightCards();
    StraightDraws();
    Dealt(ts, STRAIGHT_LINE, [Card(0x11), Card(0x22), Card(0x91), Card(0x34), Card(0xD2), Card(0x54), Card(0x42), Card(0xD4), Card(0x14), Card(0x41)], [2, 4], [Card(0x11), Card(0x22), Card(0x54), Card(0x34), Card(0x42)]);
    StraightHand(Candidate(Deal(ts), [2, 4]));
  }

  /** The pattern of the straight line draws its winning hand from the line's cards. */
  lemma StraightDraws()
    ensures Draws([Card(0x11), Card(0x22), Card(0x91), Card(0x34), Card(0xD2), Card(0x54), Card(0x42), Card(0xD4), Card(0x14), Card(0x41)], [2, 4], [Card(0x11), Card(0x22), Card(0x54), Card(0x34), Card(0x42)])
  {
  }

  /** Only the two of hearts is kept, and two more twos are drawn. */
  lemma ThreeOfAKindSample(ts: seq<string>)
    requires TokensOf(ts, THREE_OF_A_KIND_LINE)
    ensures |Deal(ts)| == 10
    ensures Evaluate(Candidate(Deal(ts), [0, 1, 3, 4])) == ThreeOfAKind
  {
    ThreeOfAKindTokens();
    ThreeOfAKindCards();
    ThreeOfAKindDraws();
    Dealt(ts, THREE_OF_A_KIND_LINE, [Card(0xD4), Card(0x13), Card(0x23), Card(0x31), Card(0x43), Card(0xD1), Card(0x21), Card(0xA1), Card(0x22), Card(0x14)], [0, 1, 3, 4], [Card(0xD1), Card(0x21), Card(0x23), Card(0xA1), Card(0x22)]);
    ThreeOfAKindHand(Candidate(Deal(ts), [0, 1, 3, 4]));
  }

  /** The pattern of the three-of-a-kind line draws its winning hand from the line's cards. */
  lemma ThreeOfAKindDraws()
    ensures Draws([Card(0xD4), Card(0x13), Card(0x23), Card(0x31), Card(0x43), Card(0xD1), Card(0x21), Card(0xA1), Card(0x22), Card(0x14)], [0, 1, 3, 4], [Card(0xD1), Card(0x21), Card(0x23), Card(0xA1), Card(0x22)])
  {
  }

  /** All five cards are replaced, giving kings and jacks. */
  lemma TwoPairsSample(ts: seq<string>)
    requires TokensOf(ts, TWO_PAIRS_LINE)
    ensures |Deal(ts)| == 10
    ensures Evaluate(Candidate(Deal(ts), [0, 1, 2, 3, 4])) == TwoPairs
  {
    TwoPairsTokens();
    TwoPairsCards();
    TwoPairsDraws();
    Dealt(ts, TWO_PAIRS_LINE, [Card(0x13), Card(0x21), Card(0x94), Card(0x12), Card(0x31), Card(0xC3), Card(0xD4), Card(0xB4), Card(0xB2), Card(0xD2)], [0, 1, 2, 3, 4], [Card(0xC3), Card(0xD4), Card(0xB4), Card(0xB2), Card(0xD2)]);
    TwoPairsHand(Candidate(Deal(ts), [0, 1, 2, 3, 4]));
  }

  /** The pattern of the two-pairs line draws its winning hand from the line's cards. */
  lemma TwoPairsDraws()
    ensures Draws([Card(0x13), Card(0x21), Card(0x94), Card(0x12), Card(0x31), Card(0xC3), Card(0xD4), Card(0xB4), Card(0xB2), Card(0xD2)], [0, 1, 2, 3, 4], [Card(0xC3), Card(0xD4), Card(0xB4), Card(0xB2), Card(0xD2)])
  {
  }

  /** The six of clubs is replaced by the two of hearts, pairing the two of diamonds. */
  lemma OnePairSample(ts: seq<string>)
    requires TokensOf(ts, ONE_PAIR_LINE)
    ensures |Deal(ts)| == 10
    ensures Evaluate(Candidate(Deal(ts), [0])) == OnePair
  {
    OnePairTokens();
    OnePairCards();
    OnePairDraws();
    Dealt(ts, ONE_PAIR_LINE, [Card(0x61), Card(0x91), Card(0x81), Card(0x22), Card(0x71), Card(0x23), Card(0xA1), Card(0x41), Card(0x94), Card(0x13)], [0], [Card(0x23), Card(0x91), Card(0x81), Card(0x22), Card(0x71)]);
    OnePairHand(Candidate(Deal(ts), [0]));
  }

  /** The pattern of the one-pair line draws its winning hand from the line's cards. */
  lemma OnePairDraws()
    ensures Draws([Card(0x61), Card(0x91), Card(0x81), Card(0x22), Card(0x71), Card(0x23), Card(0xA1), Card(0x41), Card(0x94), Card(0x13)], [0], [Card(0x23), Card(0x91), Card(0x81), Card(0x22), Card(0x71)])
  {
  }

  /** The dealt hand, kept whole: no two figures alike, no straight and no flush. */
  lemma HighestCardSample(ts: seq<string>)
    requires TokensOf(ts, HIGHEST_CARD_LINE)
    ensures |Deal(ts)| == 10
    ensures Evaluate(Candidate(Deal(ts), [])) == HighestCard
  {
    HighestCardTokens();
    HighestCardCards();
    HighestCardDraws();
    Dealt(ts, HIGHEST_CARD_LINE, [Card(0x32), Card(0x54), Card(0x23), Card(0xC2), Card(0xA2), Card(0x64), Card(0xD3), Card(0x93), Card(0x12), Card(0xC3)], [], [Card(0x32), Card(0x54), Card(0x23), Card(0xC2), Card(0xA2)]);
    HighestCardHand(Candidate(Deal(ts), []));
  }

  /** The pattern of the highest-card line draws its winning hand from the line's cards. */
  lemma HighestCardDraws()
    ensures Draws([Card(0x32), Card(0x54), Card(0x23), Card(0xC2), Card(0xA2), Card(0x64), Card(0xD3), Card(0x93), Card(0x12), Card(0xC3)], [], [Card(0x32), Card(0x54), Card(0x23), Card(0xC2), Card(0xA2)])
  {
  }

}
