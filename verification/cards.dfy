/** Card encoding: a two-character token becomes one integer holding the
    figure in its high hexadecimal digit and the suit in its low digit. */
module Cards {
  import opened Optional
  import opened Seqs

  /** Figure characters in ordinal order: the ace is figure 0 and the king figure 12. */
  const FIGURES: string := "A23456789TJQK"

  /** Suit characters in ordinal order: clubs 0, diamonds 1, hearts 2, spades 3. */
  const SUITS: string := "CDHS"

  /** The single lookup table both characters of a token go through: the
      figure at position i of FIGURES maps to (i + 1) << 4, the suit at
      position i of SUITS to i + 1 (see TableFromAlphabets). */
  function Table(ch: char): Option<int>
  {
    match ch
    case 'A' => Some(0x10)
    case '2' => Some(0x20)
    case '3' => Some(0x30)
    case '4' => Some(0x40)
    case '5' => Some(0x50)
    case '6' => Some(0x60)
    case '7' => Some(0x70)
    case '8' => Some(0x80)
    case '9' => Some(0x90)
    case 'T' => Some(0xA0)
    case 'J' => Some(0xB0)
    case 'Q' => Some(0xC0)
    case 'K' => Some(0xD0)
    case 'C' => Some(1)
    case 'D' => Some(2)
    case 'H' => Some(3)
    case 'S' => Some(4)
    case _ => None
  }

  /** A card is the raw integer the constructor computes. */
  datatype Card = Card(code: int)

  /** The constructor: the sum of the table entries of the first two characters.
      A token shorter than two characters, or a character missing from the
      table, raises; that is `None` here. Characters after the second are ignored. */
  function Parse(token: string): Option<Card>
  {
    if |token| < 2 then None
    else
      var a := Table(token[0]);
      var b := Table(token[1]);
      if a.Some? && b.Some? then Some(Card(a.value + b.value)) else None
  }

  /** `(card >> 4) - 1`; an arithmetic right shift by 4 is floor division by 16,
      which is Dafny's `/` for a positive divisor. */
  function FigureOnly(c: Card): int
  {
    c.code / 16 - 1
  }

  /** `(card & 0x0f) - 1`; masking the low four bits of a two's-complement
      integer is Dafny's (never negative) `% 16`. */
  function SuitOnly(c: Card): int
  {
    c.code % 16 - 1
  }

  /** Python string indexing: negative positions count from the end, anything
      else out of range raises. */
  function PyIndex(s: string, i: int): Option<char>
  {
    if 0 <= i < |s| then Some(s[i])
    else if -|s| <= i < 0 then Some(s[|s| + i])
    else None
  }

  /** The card's two-character text (`__str__`), or `None` where indexing raises. */
  function Show(c: Card): Option<string>
  {
    var f := PyIndex(FIGURES, FigureOnly(c));
    var s := PyIndex(SUITS, SuitOnly(c));
    if f.Some? && s.Some? then Some([f.value, s.value]) else None
  }

  /** A token naming one of the 52 cards: a figure character then a suit character. */
  predicate WellFormed(token: string)
  {
    |token| == 2 && token[0] in FIGURES && token[1] in SUITS
  }

  /** A card whose code holds an in-range figure and suit digit. */
  predicate Proper(c: Card)
  {
    0 <= FigureOnly(c) < 13 && 0 <= SuitOnly(c) < 4
  }

  /** The table is the one the two enumerations build: position i of FIGURES
      maps to (i + 1) * 16, position i of SUITS to i + 1, and nothing else is
      in it. */
  lemma TableFromAlphabets(ch: char)
    ensures forall i :: 0 <= i < |FIGURES| ==> Table(FIGURES[i]) == Some((i + 1) * 16)
    ensures forall i :: 0 <= i < |SUITS| ==> Table(SUITS[i]) == Some(i + 1)
    ensures Table(ch).Some? <==> ch in FIGURES || ch in SUITS
  {
    if Table(ch).Some? {
      assert ch == FIGURES[0] || ch == FIGURES[1] || ch == FIGURES[2] || ch == FIGURES[3]
          || ch == FIGURES[4] || ch == FIGURES[5] || ch == FIGURES[6] || ch == FIGURES[7]
          || ch == FIGURES[8] || ch == FIGURES[9] || ch == FIGURES[10] || ch == FIGURES[11]
          || ch == FIGURES[12] || ch == SUITS[0] || ch == SUITS[1] || ch == SUITS[2]
          || ch == SUITS[3];
    }
  }

  lemma CodeDigits(fi: int, si: int)
    requires 0 <= fi < 13 && 0 <= si < 4
    ensures ((fi + 1) * 16 + (si + 1)) / 16 == fi + 1
    ensures ((fi + 1) * 16 + (si + 1)) % 16 == si + 1
  {
  }

  /** Decoding a well-formed token: the figure is the position of its first
      character in FIGURES (0..12), the suit the position of its second in
      SUITS (0..3), and printing the card gives the token back. */
  lemma ParseWellFormed(token: string)
    requires WellFormed(token)
    ensures Parse(token).Some?
    ensures Proper(Parse(token).value)
    ensures FIGURES[FigureOnly(Parse(token).value)] == token[0]
    ensures SUITS[SuitOnly(Parse(token).value)] == token[1]
    ensures Show(Parse(token).value) == Some(token)
  {
    var fi :| 0 <= fi < |FIGURES| && FIGURES[fi] == token[0];
    var si :| 0 <= si < |SUITS| && SUITS[si] == token[1];
    TableFromAlphabets(token[0]);
    var c := Card((fi + 1) * 16 + (si + 1));
    assert Parse(token) == Some(c);
    CodeDigits(fi, si);
    assert [token[0], token[1]] == token;
  }

  /** Distinct well-formed tokens encode to distinct cards. */
  lemma ParseInjective(t: string, u: string)
    requires WellFormed(t) && WellFormed(u)
    requires Parse(t) == Parse(u)
    ensures t == u
  {
    ParseWellFormed(t);
    ParseWellFormed(u);
  }

  /** Printing a proper card and parsing the text gives the card back. */
  lemma ShowParse(c: Card)
    requires Proper(c)
    ensures Show(c).Some? && WellFormed(Show(c).value)
    ensures Parse(Show(c).value) == Some(c)
  {
    var fi := FigureOnly(c);
    var si := SuitOnly(c);
    var t := [FIGURES[fi], SUITS[si]];
    assert Show(c) == Some(t);
    TableFromAlphabets(t[0]);
    assert c.code == (fi + 1) * 16 + (si + 1);
  }

  /** Because both characters use one table and the entries are added, the
      order of the two characters does not matter: "HT" is the ten of hearts. */
  lemma ParseOrderInsensitive(f: char, s: char)
    requires f in FIGURES && s in SUITS
    ensures Parse([s, f]) == Parse([f, s])
    ensures Parse([s, f]).Some?
  {
    TableFromAlphabets(f);
    TableFromAlphabets(s);
  }

  /** Two suit characters are accepted too: "CC" is code 2, whose figure is -1
      and whose suit is 1, and which prints as "KD". */
  lemma ParseTwoSuits()
    ensures Parse("CC") == Some(Card(2))
    ensures FigureOnly(Card(2)) == -1 && SuitOnly(Card(2)) == 1
    ensures Show(Card(2)) == Some("KD")
  {
  }
}
