/** A hand of five cards, its classification into one of nine categories, and
    the order on categories used to compare hands. */
module Hands {
  import opened Seqs
  import opened Cards

  /** The nine categories, weakest first. */
  datatype HandRank =
    | HighestCard
    | OnePair
    | TwoPairs
    | ThreeOfAKind
    | Straight
    | Flush
    | FullHouse
    | FourOfAKind
    | StraightFlush

  /** The category names in rank order; a category's strength is its position here. */
  const RANK_NAMES: seq<string> := [
    "highest-card", "one-pair", "two-pairs", "three-of-a-kind", "straight",
    "flush", "full-house", "four-of-a-kind", "straight-flush"
  ]

  /** The name the program prints for a category. */
  function Name(r: HandRank): string
  {
    match r
    case HighestCard => "highest-card"
    case OnePair => "one-pair"
    case TwoPairs => "two-pairs"
    case ThreeOfAKind => "three-of-a-kind"
    case Straight => "straight"
    case Flush => "flush"
    case FullHouse => "full-house"
    case FourOfAKind => "four-of-a-kind"
    case StraightFlush => "straight-flush"
  }

  /** A category's strength: the position of its name in RANK_NAMES (`__int__`). */
  function Strength(r: HandRank): (v: nat)
    ensures v < |RANK_NAMES| && RANK_NAMES[v] == Name(r)
  {
    IndexOf(RANK_NAMES, Name(r))
  }

  /** The strengths run from 0 to 8 in the order the categories are declared,
      so comparing strengths compares categories and no two categories tie. */
  lemma StrengthAscending()
    ensures Strength(HighestCard) == 0 && Strength(OnePair) == 1 && Strength(TwoPairs) == 2
    ensures Strength(ThreeOfAKind) == 3 && Strength(Straight) == 4 && Strength(Flush) == 5
    ensures Strength(FullHouse) == 6 && Strength(FourOfAKind) == 7 && Strength(StraightFlush) == 8
  {
    StrengthWeak();
    StrengthMiddle();
    StrengthFullHouse();
    StrengthStrong();
  }

  /** Strength of the three weakest categories. */
  lemma StrengthWeak()
    ensures Strength(HighestCard) == 0 && Strength(OnePair) == 1 && Strength(TwoPairs) == 2
  {
  }

  /** Strength of the middle three categories. */
  lemma StrengthMiddle()
    ensures Strength(ThreeOfAKind) == 3 && Strength(Straight) == 4 && Strength(Flush) == 5
  {
  }

  /** Strength of a full house. */
  lemma StrengthFullHouse()
    ensures Strength(FullHouse) == 6
  {
  }

  /** Strength of the two strongest categories. */
  lemma StrengthStrong()
    ensures Strength(FourOfAKind) == 7 && Strength(StraightFlush) == 8
  {
  }

  /** `a > b` on hands: the strength of a's category exceeds that of b's. */
  predicate Beats(a: HandRank, b: HandRank)
  {
    Strength(a) > Strength(b)
  }

  /** A hand is the list of its cards; the program only ever builds hands of five. */
  type Hand = seq<Card>

  /** `replace`: the card at `index` becomes `c`. */
  function Replace(h: Hand, index: nat, c: Card): (r: Hand)
    requires index < |h|
    ensures |r| == |h| && r[index] == c
    ensures forall j :: 0 <= j < |h| && j != index ==> r[j] == h[j]
  {
    h[index := c]
  }

  /** The figures of the cards, in hand order. */
  function Figures(h: Hand): seq<int>
  {
    Map(FigureOnly, h)
  }

  /** The suits of the cards, in hand order. */
  function Suits(h: Hand): seq<int>
  {
    Map(SuitOnly, h)
  }

  /** Positions 1..4 (from `from` on) where a figure is not one above its successor. */
  function Stops(figures: seq<int>, from: nat): seq<nat>
    requires |figures| == 5 && 1 <= from <= 5
    decreases 5 - from
  {
    if from == 5 then []
    else
      (if figures[from - 1] != figures[from] + 1 then [from] else [])
      + Stops(figures, from + 1)
  }

  /** `is_straight`: no stop at all, or a single stop between the last two
      figures with the first figure 12 (king) and the last 0 (ace). */
  predicate IsStraight(figures: seq<int>)
    requires |figures| == 5
  {
    var stops := Stops(figures, 1);
    stops == [] || (stops == [4] && figures[0] == 12 && figures[4] == 0)
  }

  /** `evaluate`: the category of a five-card hand, decided on the number of
      distinct suits and on the figures sorted in descending order. */
  function Evaluate(h: Hand): HandRank
    requires |h| == 5
  {
    Classify(DistinctCount(Suits(h)), SortDesc(Figures(h)))
  }

  /** The decision chain of `evaluate`, given the suit count and the sorted figures. */
  function Classify(suits: nat, f: seq<int>): HandRank
    requires |f| == 5
  {
    if suits == 1 then
      if IsStraight(f) then StraightFlush else Flush
    else if f[0] == f[3] || f[1] == f[4] then FourOfAKind
    else if f[0] == f[2] && f[3] == f[4] then FullHouse
    else if f[0] == f[1] && f[2] == f[4] then FullHouse
    else if IsStraight(f) then Straight
    else if f[0] == f[2] || f[1] == f[3] || f[2] == f[4] then ThreeOfAKind
    else
      var distinct := DistinctCount(f);
      if distinct == 3 then TwoPairs
      else if distinct == 4 then OnePair
      else HighestCard
  }
}
