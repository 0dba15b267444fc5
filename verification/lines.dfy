/** Turning an input line into cards: upper-case it, split it on white space
    and parse every token; a single bad token spoils the whole line. */
module Lines {
  import opened Optional
  import opened Cards

  /** `str.upper()` on a byte string: only the ASCII letters a .. z change. */
  function UpperChar(ch: char): (r: char)
    ensures 'a' <= ch <= 'z' ==> 'A' <= r <= 'Z' && r as int - ch as int == 'A' as int - 'a' as int
    ensures !('a' <= ch <= 'z') ==> r == ch
  {
    if 'a' <= ch <= 'z' then (ch as int - 'a' as int + 'A' as int) as char else ch
  }

  function Upper(s: string): (r: string)
    ensures |r| == |s|
    ensures forall i :: 0 <= i < |s| ==> r[i] == UpperChar(s[i])
  {
    if s == [] then [] else [UpperChar(s[0])] + Upper(s[1..])
  }

  /** The characters `str.split()` treats as separators in a byte string:
      space, tab, line feed, carriage return, vertical tab and form feed. */
  predicate IsSpace(ch: char)
  {
    ch == ' ' || ch == '\t' || ch == '\n' || ch == '\r' || ch == 11 as char || ch == 12 as char
  }

  /** A token as `split()` produces it: non-empty, with no separator inside. */
  predicate Word(t: string)
  {
    |t| > 0 && forall i :: 0 <= i < |t| ==> !IsSpace(t[i])
  }

  /** Length of the run of non-separators at the front of `s`. */
  function WordEnd(s: string): (k: nat)
    ensures k <= |s|
    ensures forall i :: 0 <= i < k ==> !IsSpace(s[i])
    ensures k == |s| || IsSpace(s[k])
  {
    if s == [] || IsSpace(s[0]) then 0 else 1 + WordEnd(s[1..])
  }

  /** `str.split()` with no argument: the maximal runs of non-separators, in
      order; leading, trailing and repeated separators produce no empty tokens. */
  function Split(s: string): (r: seq<string>)
    ensures forall i :: 0 <= i < |r| ==> Word(r[i])
    decreases |s|
  {
    if s == [] then []
    else if IsSpace(s[0]) then Split(s[1..])
    else
      var k := WordEnd(s);
      [s[..k]] + Split(s[k..])
  }

  /** Tokens written out with one space between neighbours, as the input
      format lays out a line. */
  function Join(ts: seq<string>): string
  {
    if ts == [] then ""
    else if |ts| == 1 then ts[0]
    else ts[0] + " " + Join(ts[1..])
  }

  lemma WordEndOfWord(t: string, rest: string)
    requires Word(t)
    requires rest == [] || IsSpace(rest[0])
    ensures WordEnd(t + rest) == |t|
    decreases |t|
  {
    if |t| > 1 {
      assert (t + rest)[1..] == t[1..] + rest;
      WordEndOfWord(t[1..], rest);
    }
  }

  /** Splitting undoes joining: a line built from tokens with single spaces
      splits back into exactly those tokens. */
  lemma {:induction false} SplitJoin(ts: seq<string>)
    requires forall i :: 0 <= i < |ts| ==> Word(ts[i])
    ensures Split(Join(ts)) == ts
  {
    if |ts| == 1 {
      WordEndOfWord(ts[0], []);
      assert ts[0] + [] == ts[0];
      assert ts[0][|ts[0]|..] == [];
    } else if |ts| > 1 {
      var rest := " " + Join(ts[1..]);
      var line := ts[0] + rest;
      assert Join(ts) == line;
      WordEndOfWord(ts[0], rest);
      assert line[..|ts[0]|] == ts[0];
      assert line[|ts[0]|..] == rest;
      assert rest[1..] == Join(ts[1..]);
      SplitJoin(ts[1..]);
      assert Split(rest) == ts[1..];
    }
  }

  /** `map(Card, tokens)`: every token parsed, or `None` as soon as one raises. */
  function ParseAll(tokens: seq<string>): (r: Option<seq<Card>>)
    ensures r.Some? <==> forall i :: 0 <= i < |tokens| ==> Parse(tokens[i]).Some?
    ensures r.Some? ==> |r.value| == |tokens|
    ensures r.Some? ==> forall i :: 0 <= i < |tokens| ==> r.value[i] == Parse(tokens[i]).value
  {
    if tokens == [] then Some([])
    else
      var head := Parse(tokens[0]);
      var tail := ParseAll(tokens[1..]);
      if head.Some? && tail.Some? then
        Some([head.value] + tail.value)
      else
        assert head.None? ==> !Parse(tokens[0]).Some?;
        assert tail.None? ==> exists i :: 0 <= i < |tokens| - 1 && !Parse(tokens[1..][i]).Some?;
        None
  }

  /** `convert`: the cards of the line, or the empty list when any token
      fails to parse. */
  function Convert(line: string): (cards: seq<Card>)
    ensures var tokens := Split(Upper(line));
      (forall i :: 0 <= i < |tokens| ==> Parse(tokens[i]).Some?) ==>
        |cards| == |tokens| && forall i :: 0 <= i < |tokens| ==> Some(cards[i]) == Parse(tokens[i])
    ensures var tokens := Split(Upper(line));
      (exists i :: 0 <= i < |tokens| && Parse(tokens[i]).None?) ==> cards == []
  {
    match ParseAll(Split(Upper(line)))
    case Some(cs) => cs
    case None => []
  }

  /** Letter case does not matter: upper-casing the line first changes
      nothing, since upper-casing twice is upper-casing once. */
  lemma ConvertIgnoresCase(line: string)
    ensures Upper(Upper(line)) == Upper(line)
    ensures Convert(Upper(line)) == Convert(line)
  {
    assert Upper(Upper(line)) == Upper(line);
  }

  /** Upper-casing leaves a card token alone. */
  lemma UpperWellFormed(ts: seq<string>)
    requires forall i :: 0 <= i < |ts| ==> WellFormed(ts[i])
    ensures Upper(Join(ts)) == Join(ts)
  {
    var line := Join(ts);
    forall i | 0 <= i < |line|
      ensures UpperChar(line[i]) == line[i]
    {
      JoinChars(ts, i);
    }
  }

  lemma {:induction false} JoinChars(ts: seq<string>, i: nat)
    requires forall k :: 0 <= k < |ts| ==> WellFormed(ts[k])
    requires i < |Join(ts)|
    ensures !('a' <= Join(ts)[i] <= 'z')
  {
    if |ts| > 1 {
      var line := ts[0] + " " + Join(ts[1..]);
      assert Join(ts) == line;
      if i >= 3 {
        assert line[i] == Join(ts[1..])[i - 3];
        JoinChars(ts[1..], i - 3);
      } else if i < 2 {
        assert line[i] == ts[0][i];
        CardCharNotLower(ts[0][i]);
      }
    } else {
      assert Join(ts)[i] == ts[0][i];
      CardCharNotLower(ts[0][i]);
    }
  }

  /** Card characters are neither separators nor lower-case letters. */
  lemma CardCharNotLower(ch: char)
    requires ch in FIGURES || ch in SUITS
    ensures !IsSpace(ch) && !('a' <= ch <= 'z')
  {
    TableFromAlphabets(ch);
  }

  lemma WellFormedWord(t: string)
    requires WellFormed(t)
    ensures Word(t)
  {
    CardCharNotLower(t[0]);
    CardCharNotLower(t[1]);
  }

  /** A line of card tokens converts to the cards they name, and printing
      those cards gives the tokens back. */
  lemma ConvertJoin(ts: seq<string>)
    requires |ts| > 0
    requires forall i :: 0 <= i < |ts| ==> WellFormed(ts[i])
    ensures |Convert(Join(ts))| == |ts|
    ensures forall i :: 0 <= i < |ts| ==> Some(Convert(Join(ts))[i]) == Parse(ts[i])
    ensures forall i :: 0 <= i < |ts| ==> Show(Convert(Join(ts))[i]) == Some(ts[i])
  {
    UpperWellFormed(ts);
    forall i | 0 <= i < |ts|
      ensures Word(ts[i])
    {
      WellFormedWord(ts[i]);
    }
    SplitJoin(ts);
    forall i | 0 <= i < |ts|
      ensures Parse(ts[i]).Some? && Show(Parse(ts[i]).value) == Some(ts[i])
    {
      ParseWellFormed(ts[i]);
    }
  }
}
