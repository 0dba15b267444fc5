/** The per-line driver: convert the line, check it holds ten cards, and
    search for the best hand; the text printed for the line. */
module Process {
  import opened Optional
  import opened Seqs
  import opened Cards
  import opened Hands
  import opened Lines
  import opened Search

  /** `validate`: the cards when the set of card objects has ten members.
      `Card` defines neither equality nor hashing, so the set compares
      objects by identity; `convert` builds one fresh object per token, so
      the set holds exactly one member per position of the list. */
  function Validate(cards: seq<Card>): (r: Option<seq<Card>>)
    ensures r.Some? <==> |cards| == 10
    ensures r.Some? ==> r.value == cards
  {
    var objects := Positions(|cards|);
    if |objects| == 10 then Some(cards) else None
  }

  /** The check `validate` evidently means to make: ten cards, no two of
      them the same card. */
  function ValidateDistinct(cards: seq<Card>): (r: Option<seq<Card>>)
    ensures r.Some? <==> |cards| == 10 && NoDuplicates(cards)
    ensures r.Some? ==> r.value == cards
  {
    DistinctCountFull(cards);
    if |cards| == 10 && DistinctCount(cards) == 10 then Some(cards) else None
  }

  /** The duplicate-carrying line: the ten of hearts is both the first
      card of the hand and the last card of the deck. */
  const DUPLICATED: seq<string> := ["TH", "JH", "QC", "QD", "QS", "QH", "KH", "AH", "2S", "TH"]

  /** `validate` lets the repeated card through; the intended check
      rejects the line. */
  lemma ValidateAcceptsDuplicates()
    ensures |Convert(Join(DUPLICATED))| == 10
    ensures Validate(Convert(Join(DUPLICATED))).Some?
    ensures ValidateDistinct(Convert(Join(DUPLICATED))).None?
  {
    var ts := DUPLICATED;
    assert forall i :: 0 <= i < |ts| ==> WellFormed(ts[i]);
    ConvertJoin(ts);
    var cards := Convert(Join(ts));
    assert Some(cards[0]) == Parse(ts[0]) == Parse(ts[9]) == Some(cards[9]);
  }

  /** On lines without a repeated card the two checks agree. */
  lemma ValidateAgreesWithoutDuplicates(cards: seq<Card>)
    requires NoDuplicates(cards)
    ensures Validate(cards) == ValidateDistinct(cards)
  {
  }

  /** `process`: the best hand for a line of ten cards, nothing otherwise. */
  method ProcessLine(line: string) returns (r: Option<Hand>)
    ensures r.Some? <==> |Convert(line)| == 10
    ensures r.Some? ==> |r.value| == 5 && FirstBest(Convert(line), r.value)
  {
    var cards := Validate(Convert(line));
    if cards.None? {
      return None;
    }
    var best := BestCombinations(cards.value);
    r := Some(best);
  }

  /** `process` with the intended check: lines repeating a card are refused. */
  method ProcessDistinct(line: string) returns (r: Option<Hand>)
    ensures r.Some? <==> |Convert(line)| == 10 && NoDuplicates(Convert(line))
    ensures r.Some? ==> |r.value| == 5 && FirstBest(Convert(line), r.value)
  {
    var cards := ValidateDistinct(Convert(line));
    if cards.None? {
      return None;
    }
    var best := BestCombinations(cards.value);
    r := Some(best);
  }

  const INVALID: string := "Invalid line"

  /** The text `read_input` prints for one line, as the program is written:
      the category name of the best hand whenever the line holds ten cards,
      a repeated card included, and the invalid-line message otherwise. */
  method ReportAsWritten(line: string) returns (out: string)
    ensures out == INVALID <==> |Convert(line)| != 10
    ensures out != INVALID ==> out in RANK_NAMES
    ensures out != INVALID ==> exists best :: |best| == 5 && FirstBest(Convert(line), best) && out == Name(Evaluate(best))
  {
    var r := ProcessLine(line);
    if r.None? {
      return INVALID;
    }
    var best := r.value;
    out := Name(Evaluate(best));
    NameListed(Evaluate(best));
  }

  /** The text `read_input` prints for one line, with the intended check:
      the category name of the best hand, or the invalid-line message for a
      line that is not ten distinct cards. */
  method Report(line: string) returns (out: string)
    ensures out == INVALID <==> |Convert(line)| != 10 || !NoDuplicates(Convert(line))
    ensures out != INVALID ==> out in RANK_NAMES
    ensures out != INVALID ==> exists best :: |best| == 5 && FirstBest(Convert(line), best) && out == Name(Evaluate(best))
  {
    var r := ProcessDistinct(line);
    if r.None? {
      return INVALID;
    }
    var best := r.value;
    out := Name(Evaluate(best));
    NameListed(Evaluate(best));
  }

  /** Every category prints as one of the nine names, never as the
      invalid-line message. */
  lemma NameListed(r: HandRank)
    ensures Name(r) in RANK_NAMES && Name(r) != INVALID
  {
    assert Name(r) == RANK_NAMES[Strength(r)];
  }
}
