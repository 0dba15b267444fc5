/** The nine sample lines of the program's description and of its self-test,
    as lists of tokens, and what their tokens encode. */
module SampleLines {
  import opened Optional
  import opened Cards

  const STRAIGHT_FLUSH_LINE: seq<string> := ["TH", "JH", "QC", "QD", "QS", "QH", "KH", "AH", "2S", "6S"]
  const FOUR_OF_A_KIND_LINE: seq<string> := ["2H", "2S", "3H", "3S", "3C", "2D", "3D", "6C", "9C", "TH"]
  const FULL_HOUSE_LINE: seq<string> := ["2H", "2S", "3H", "3S", "3C", "2D", "9C", "3D", "6C", "TH"]
  const FLUSH_LINE: seq<string> := ["2H", "AD", "5H", "AC", "7H", "AH", "6H", "9H", "4H", "3C"]
  const STRAIGHT_LINE: seq<string> := ["AC", "2D", "9C", "3S", "KD", "5S", "4D", "KS", "AS", "4C"]
  const THREE_OF_A_KIND_LINE: seq<string> := ["KS", "AH", "2H", "3C", "4H", "KC", "2C", "TC", "2D", "AS"]
  const TWO_PAIRS_LINE: seq<string> := ["AH", "2C", "9S", "AD", "3C", "QH", "KS", "JS", "JD", "KD"]
  const ONE_PAIR_LINE: seq<string> := ["6C", "9C", "8C", "2D", "7C", "2H", "TC", "4C", "9S", "AH"]
  const HIGHEST_CARD_LINE: seq<string> := ["3D", "5S", "2H", "QD", "TD", "6S", "KH", "9H", "AD", "QH"]

  /** `a` and `b` agree element by element: `a == b`, stated one element at a time. */
  predicate SameAs<T(==)>(a: seq<T>, b: seq<T>)
  {
    |a| == |b| && forall i :: 0 <= i < |a| ==> a[i] == b[i]
  }

  /** `ts` holds the tokens of the sample line `line`. */
  predicate TokensOf(ts: seq<string>, line: seq<string>)
  {
    SameAs(ts, line)
  }

  /** The ten tokens of `ts` encode the ten `cards`, one by one. */
  predicate Reads(ts: seq<string>, cards: seq<Card>)
  {
    |ts| == 10 && |cards| == 10 &&
    Parse(ts[0]) == Some(cards[0]) && Parse(ts[1]) == Some(cards[1]) && Parse(ts[2]) == Some(cards[2]) &&
    Parse(ts[3]) == Some(cards[3]) && Parse(ts[4]) == Some(cards[4]) && Parse(ts[5]) == Some(cards[5]) &&
    Parse(ts[6]) == Some(cards[6]) && Parse(ts[7]) == Some(cards[7]) && Parse(ts[8]) == Some(cards[8]) &&
    Parse(ts[9]) == Some(cards[9])
  }

  /** The line TH JH QC QD QS QH KH AH 2S 6S: every token is a card token. */
  lemma StraightFlushTokens()
    ensures forall i :: 0 <= i < |STRAIGHT_FLUSH_LINE| ==> WellFormed(STRAIGHT_FLUSH_LINE[i])
  {
  }

  /** The cards the tokens of that line encode, in order. */
  lemma StraightFlushCards()
    ensures Reads(STRAIGHT_FLUSH_LINE, [Card(0xA3), Card(0xB3), Card(0xC1), Card(0xC2), Card(0xC4), Card(0xC3), Card(0xD3), Card(0x13), Card(0x24), Card(0x64)])
  {
  }

  /** The line 2H 2S 3H 3S 3C 2D 3D 6C 9C TH: every token is a card token. */
  lemma FourOfAKindTokens()
    ensures forall i :: 0 <= i < |FOUR_OF_A_KIND_LINE| ==> WellFormed(FOUR_OF_A_KIND_LINE[i])
  {
  }

  /** The cards the tokens of that line encode, in order. */
  lemma FourOfAKindCards()
    ensures Reads(FOUR_OF_A_KIND_LINE, [Card(0x23), Card(0x24), Card(0x33), Card(0x34), Card(0x31), Card(0x22), Card(0x32), Card(0x61), Card(0x91), Card(0xA3)])
  {
  }

  /** The line 2H 2S 3H 3S 3C 2D 9C 3D 6C TH: every token is a card token. */
  lemma FullHouseTokens()
    ensures forall i :: 0 <= i < |FULL_HOUSE_LINE| ==> WellFormed(FULL_HOUSE_LINE[i])
  {
  }

  /** The cards the tokens of that line encode, in order. */
  lemma FullHouseCards()
    ensures Reads(FULL_HOUSE_LINE, [Card(0x23), Card(0x24), Card(0x33), Card(0x34), Card(0x31), Card(0x22), Card(0x91), Card(0x32), Card(0x61), Card(0xA3)])
  {
  }

  /** The line 2H AD 5H AC 7H AH 6H 9H 4H 3C: every token is a card token. */
  lemma FlushTokens()
    ensures forall i :: 0 <= i < |FLUSH_LINE| ==> WellFormed(FLUSH_LINE[i])
  {
  }

  /** The cards the tokens of that line encode, in order. */
  lemma FlushCards()
    ensures Reads(FLUSH_LINE, [Card(0x23), Card(0x12), Card(0x53), Card(0x11), Card(0x73), Card(0x13), Card(0x63), Card(0x93), Card(0x43), Card(0x31)])
  {
  }

  /** The line AC 2D 9C 3S KD 5S 4D KS AS 4C: every token is a card token. */
  lemma StraightTokens()
    ensures forall i :: 0 <= i < |STRAIGHT_LINE| ==> WellFormed(STRAIGHT_LINE[i])
  {
  }

  /** The cards the tokens of that line encode, in order. */
  lemma StraightCards()
    ensures Reads(STRAIGHT_LINE, [Card(0x11), Card(0x22), Card(0x91), Card(0x34), Card(0xD2), Card(0x54), Card(0x42), Card(0xD4), Card(0x14), Card(0x41)])
  {
  }

  /** The line KS AH 2H 3C 4H KC 2C TC 2D AS: every token is a card token. */
  lemma ThreeOfAKindTokens()
    ensures forall i :: 0 <= i < |THREE_OF_A_KIND_LINE| ==> WellFormed(THREE_OF_A_KIND_LINE[i])
  {
  }

  /** The cards the tokens of that line encode, in order. */
  lemma ThreeOfAKindCards()
    ensures Reads(THREE_OF_A_KIND_LINE, [Card(0xD4), Card(0x13), Card(0x23), Card(0x31), Card(0x43), Card(0xD1), Card(0x21), Card(0xA1), Card(0x22), Card(0x14)])
  {
  }

  /** The line AH 2C 9S AD 3C QH KS JS JD KD: every token is a card token. */
  lemma TwoPairsTokens()
    ensures forall i :: 0 <= i < |TWO_PAIRS_LINE| ==> WellFormed(TWO_PAIRS_LINE[i])
  {
  }

  /** The cards the tokens of that line encode, in order. */
  lemma TwoPairsCards()
    ensures Reads(TWO_PAIRS_LINE, [Card(0x13), Card(0x21), Card(0x94), Card(0x12), Card(0x31), Card(0xC3), Card(0xD4), Card(0xB4), Card(0xB2), Card(0xD2)])
  {
  }

  /** The line 6C 9C 8C 2D 7C 2H TC 4C 9S AH: every token is a card token. */
  lemma OnePairTokens()
    ensures forall i :: 0 <= i < |ONE_PAIR_LINE| ==> WellFormed(ONE_PAIR_LINE[i])
  {
  }

  /** The cards the tokens of that line encode, in order. */
  lemma OnePairCards()
    ensures Reads(ONE_PAIR_LINE, [Card(0x61), Card(0x91), Card(0x81), Card(0x22), Card(0x71), Card(0x23), Card(0xA1), Card(0x41), Card(0x94), Card(0x13)])
  {
  }

  /** The line 3D 5S 2H QD TD 6S KH 9H AD QH: every token is a card token. */
  lemma HighestCardTokens()
    ensures forall i :: 0 <= i < |HIGHEST_CARD_LINE| ==> WellFormed(HIGHEST_CARD_LINE[i])
  {
  }

  /** The cards the tokens of that line encode, in order. */
  lemma HighestCardCards()
    ensures Reads(HIGHEST_CARD_LINE, [Card(0x32), Card(0x54), Card(0x23), Card(0xC2), Card(0xA2), Card(0x64), Card(0xD3), Card(0x93), Card(0x12), Card(0xC3)])
  {
  }
}
