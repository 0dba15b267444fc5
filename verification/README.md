# Psychic poker player, modelled in Dafny

The program reads lines of ten card tokens. The first five tokens are the
dealt hand and the next five are the top of the deck. For each line it
prints the best poker category the player can reach by discarding any of
the five dealt cards (none, some or all of them). Each discarded card is
replaced, in order, by the next card from the deck.

This project models the whole per-line pipeline of `python/poker.py`:

- the card encoding (`Card`): one integer whose high hexadecimal digit holds
  the figure and whose low digit holds the suit;
- the hand classifier (`Hand.is_straight`, `Hand.evaluate`, `Hand.replace`,
  and the rank order behind `Hand.__int__`/`Hand.__gt__`);
- the discard generator (`discard`), which yields every increasing list of
  `n` hand positions;
- the search (`best_combinations`), which keeps the first hand of the
  highest category;
- the line driver (`convert`, `validate`, `process`) and the text printed
  for one line.

Modules:

| module | file | what it holds |
|---|---|---|
| `Optional` | optional.dfy | `Option`, standing for a raised exception or a falsy result |
| `Seqs` | seqs.dfy | `list.index`, `len(set(..))`, `sorted(.., reverse=True)`, `map` |
| `Cards` | cards.dfy | the encoding table, parsing, `figure_only`, `suit_only`, `__str__` |
| `Hands` | hands.dfy | categories, strengths, `replace`, `is_straight`, `evaluate` |
| `HandFacts` | handfacts.dfy | an order-free reference classification, and proofs that `evaluate` computes it |
| `Discards` | discards.dfy | the generator as a stack machine; the reference enumeration `Choose` |
| `Search` | search.dfy | candidate hands, the search order, `best_combinations` |
| `Lines` | lines.dfy | `str.upper`, `str.split` and `convert` |
| `Process` | process.dfy | `validate`, `process` and the printed text |
| `SampleLines` | sample_lines.dfy | the nine sample lines of the docstring and of `test`, and the cards they encode |
| `SampleHands` | sample_hands.dfy | the category of each sample's winning hand |
| `Samples` | samples.dfy | each sample line reaches its expected category; the straight-flush line prints it |

What `best_combinations` promises is stated as `Search.FirstBest`. The
result is the hand produced by some discard pattern `c` that meets three
conditions:

- no pattern gives a hand of a higher category;
- every pattern tried before `c` gives a hand of a strictly lower category;
- "tried before" means fewer discards, or the same number of discards and
  earlier in lexicographic order.

`Search.FirstBestUnique` shows that this determines the hand.

Some readings of the code that a reader of its docstring might not expect:

- **The ace is low.** Its figure is 0, and the king's is 12. `is_straight`
  accepts five consecutive figures, which includes ace to five. Its single
  special case is ten-jack-queen-king-ace, sorted as `[12, 11, 10, 9, 0]`
  (`HandFacts.IsStraightIff`).
- **Repeated cards are accepted.** The docstring (python/poker.py:44-45)
  promises that no line repeats a card, and `validate` evidently means to
  refuse one that does. It counts card objects, not card values, so a line
  that repeats a card passes (see Findings). `Process.ReportAsWritten`
  models the program as written; `Process.Report` models it with the
  intended check.
- **Line length.** Any count of tokens other than ten is refused, more
  than ten included.
- **Output.** The docstring (python/poker.py:45-47, with the sample output
  at python/poker.py:68-76) describes a line "Hand: … Deck: … Best hand: …".
  `read_input` prints only the category name (python/poker.py:237), and
  `test` compares only that name (python/poker.py:239-273). The model
  follows the code.

## Model

| member | source | states |
|---|---|---|
| Cards.TableFromAlphabets | python/poker.py:88-91 | the lookup table maps the i-th figure character to (i+1)·16 and the i-th suit character to i+1, and holds no other character |
| Cards.ParseWellFormed | python/poker.py:93-113 | a figure character followed by a suit character gives a card whose `figure_only` is the figure's position (0..12), whose `suit_only` is the suit's position (0..3), and which prints back as the same token |
| Cards.ShowParse | python/poker.py:97-101 | printing a card with in-range digits and parsing the text gives the same card back |
| Cards.ParseInjective | python/poker.py:93-97 | different well-formed tokens encode to different cards |
| Cards.ParseOrderInsensitive | python/poker.py:90-97 | both characters go through one table and are added, so "HT" and "TH" are the same card |
| Cards.ParseTwoSuits | python/poker.py:97-113 | "CC" is accepted: its figure is -1, its suit is 1, and with Python's negative indexing it prints as "KD" |
| Hands.Strength | python/poker.py:135-139 | a category's strength is the position of its name in the rank list |
| Hands.StrengthAscending | python/poker.py:118 | the strengths are 0 to 8 in declaration order, so `>` on hands compares categories and no two categories tie |
| Hands.Replace | python/poker.py:124-127 | the card at the index becomes the new card, and every other card stays where it was |
| Seqs.DistinctCount | python/poker.py:160 | the number of distinct values is the size of the set of elements |
| Seqs.SortDesc | python/poker.py:161 | the result is non-increasing and a permutation of the input |
| Seqs.DescendingUnique | python/poker.py:161 | two non-increasing sequences with the same elements are equal, so the sorted figures depend only on the multiset of cards |
| HandFacts.IsStraightIff | python/poker.py:149-156 | `is_straight` holds exactly for five consecutive descending figures, and for king-queen-jack-ten followed by the ace |
| HandFacts.OneSuitIff | python/poker.py:160-163 | the suit count is 1 exactly when all five cards share a suit |
| HandFacts.EvaluateMatchesCategory | python/poker.py:158-180 | `evaluate` equals the reference classification, which works from how often each figure occurs and whether all suits agree |
| HandFacts.FlushIffOneSuit | python/poker.py:163-164 | a flush or straight flush happens exactly when the hand has one suit; it is a straight flush exactly when the figures also form a straight |
| HandFacts.EvaluatePermutation | python/poker.py:158-161 | reordering the five cards never changes the category |
| Discards.Push | python/poker.py:188-193 | pushing the cursor position yields a snapshot exactly when the stack reaches n positions, keeps the generator invariant, and strictly lowers the remaining work |
| Discards.Pop | python/poker.py:194-199 | with the cursor exhausted, popping resumes after the last stacked position, keeps the invariant, and shortens the stack |
| Discards.Generate | python/poker.py:184-199 | for n > 0 the generator yields exactly the reference enumeration `Choose(n, 0)` |
| Discards.ChooseFacts | python/poker.py:182-199 | the enumeration holds exactly the strictly increasing lists of n positions in 0..4, in ascending lexicographic order; there are C(5, n) of them, and none when n > 5 |
| Discards.ChooseNoRepeats | python/poker.py:182-199 | no pattern is yielded twice |
| Discards.Discard | python/poker.py:182-199 | `discard(n)` yields nothing for n <= 0; otherwise it yields every strictly increasing list of n hand positions, and only those, in ascending order, C(5, n) of them |
| Search.SubstituteSpec | python/poker.py:207-209 | after the replacements, position v[k] holds deck card k, and every position not in the pattern keeps the dealt card |
| Search.ApplyPattern | python/poker.py:207-209 | the inner loop builds exactly the candidate hand of the pattern |
| Search.UpToMembers | python/poker.py:204-206 | the reference order `UpTo(d)` (keep all five, then each number of discards up to d, each group in the generator's order) lists exactly the strictly increasing lists of at most d positions |
| Search.UpToCount | python/poker.py:204-206 | the reference order starts with the empty pattern, the kept dealt hand, and lists the sum of C(5, k) patterns for k ≤ d |
| Search.UpToOrdered | python/poker.py:204-206 | each pattern of the reference order is tried before every later one: fewer discards first, then lexicographic order |
| Search.UpToPositions | python/poker.py:204-206 | of two patterns of at most d positions, one is tried before the other exactly when it comes first in the reference order, so `TriedBefore` is the order the loops visit patterns in |
| Search.ThirtyTwoPatterns | python/poker.py:202-206 | the reference order for five discards has 32 patterns, the count the docstring of `best_combinations` gives |
| Search.SearchStep | python/poker.py:210-211 | a candidate replaces the best hand exactly when it ranks strictly higher, which keeps the "first best so far" invariant |
| Search.Scan | python/poker.py:206-211 | after one round's patterns, the kept hand is the first of the highest category among all patterns reached |
| Search.Round | python/poker.py:205-211 | after the round for d discards, every pattern of at most d positions has been accounted for |
| Search.BestCombinations | python/poker.py:201-212 | the result is a five-card hand; no pattern gives a higher category, and every pattern tried earlier gives a strictly lower one |
| Search.FirstBestDominates | python/poker.py:201-212 | the result ranks at least as high as the dealt hand and as any single discard pattern |
| Search.FirstBestUnique | python/poker.py:210-211 | ties go to the earlier pattern, so the promise determines the result |
| Search.TriedBeforeAsymmetric | python/poker.py:205-206 | of two patterns, at most one is tried before the other |
| Search.TriedBeforeTotal | python/poker.py:205-206 | of two different patterns, one is tried before the other |
| Lines.SplitJoin | python/poker.py:222 | splitting a line of tokens joined by single spaces gives the tokens back |
| Lines.ParseAll | python/poker.py:222-224 | mapping the constructor succeeds exactly when every token parses, and then gives their cards in order |
| Lines.Convert | python/poker.py:219-224 | a line whose tokens all parse gives one card per token in order; a line with any bad token gives the empty list |
| Lines.ConvertIgnoresCase | python/poker.py:222 | upper-casing is idempotent, so the letter case of the line does not matter |
| Lines.ConvertJoin | python/poker.py:219-224 | a line of card tokens converts to their cards, which print back as the same tokens |
| Process.Validate | python/poker.py:214-217 | as written: the line's cards are returned exactly when there are ten of them |
| Process.ValidateAcceptsDuplicates | python/poker.py:214-217 | a line that repeats the ten of hearts passes `validate` but fails the intended check |
| Process.ValidateDistinct | python/poker.py:214-217 | the corrected check: the cards are returned exactly when there are ten and no two are the same |
| Process.ValidateAgreesWithoutDuplicates | python/poker.py:214-217 | on lines with no repeated card, the two checks give the same answer |
| Process.ProcessLine | python/poker.py:226-229 | as written: a hand comes back exactly when the line converts to ten cards, and it is the first best hand of the search |
| Process.ProcessDistinct | python/poker.py:226-229 | with the corrected check: a hand comes back exactly for ten distinct cards, and it is the first best hand |
| Process.NameListed | python/poker.py:118 | every category prints as one of the nine names, never as the invalid-line text |
| Process.ReportAsWritten | python/poker.py:226-237 | as written: the printed text is "Invalid line" exactly for a line that does not convert to ten cards; otherwise it is one of the nine category names, that of the first best hand |
| Process.Report | python/poker.py:226-237 | with the corrected check: the printed text is "Invalid line" exactly for a line that is not ten distinct cards; otherwise it is the category name of the first best hand |
| Samples.StraightFlushSample | python/poker.py:243-244 | on the sample line expected to give straight-flush: keeping TH JH and drawing QH KH AH gives ten to ace of hearts, a straight flush |
| Samples.FourOfAKindSample | python/poker.py:245-246 | on the sample line expected to give four-of-a-kind: replacing the two twos by 2D 3D gives four threes |
| Samples.FullHouseSample | python/poker.py:247-248 | on the sample line expected to give full-house: the dealt hand, kept whole, is a full house |
| Samples.FlushSample | python/poker.py:249-250 | on the sample line expected to give flush: replacing AD and AC by AH 6H gives five hearts, a flush |
| Samples.StraightSample | python/poker.py:251-252 | on the sample line expected to give straight: replacing 9C and KD by 5S 4D gives ace to five, a straight |
| Samples.ThreeOfAKindSample | python/poker.py:253-254 | on the sample line expected to give three-of-a-kind: keeping only 2H and drawing KC 2C TC 2D gives three twos |
| Samples.TwoPairsSample | python/poker.py:255-256 | on the sample line expected to give two-pairs: replacing all five cards gives QH KS JS JD KD, two pairs |
| Samples.OnePairSample | python/poker.py:257-258 | on the sample line expected to give one-pair: replacing 6C by 2H gives a pair of twos |
| Samples.HighestCardSample | python/poker.py:259-260 | on the sample line expected to give highest-card: the dealt hand, kept whole, is only a highest card |
| Samples.StraightFlushPrinted | python/poker.py:243-244 | the straight-flush sample line, run through the whole pipeline as written, prints "straight-flush" |

## Left out

- `read_input` and `test` (python/poker.py:231-end): reading lines and the file-or-stdin choice are I/O. `Process.ReportAsWritten` models what one line prints, and the `Samples` module proves what the self-test checks for each of its lines (for the straight-flush line the printed name; for the others, that the expected category is reached).
- The rank cache in `Hand` (`self.rank`, python/poker.py:122-139): it only saves recomputation. The model classifies a hand with a pure function every time.
- `Hand.__str__` and `Hand.__ne__` (python/poker.py:129-133, 141-143): the search never uses them. `Process.ReportAsWritten` applies `Name` to the category directly.
- `Card.__int__` (python/poker.py:103-105): it is the `code` field of `Card`.
- Discards.Discard: the lazy generator is modelled as its complete output, each yielded list recorded when it is yielded. The source yields the same list object every time and mutates it afterwards. `best_combinations` consumes each yield before resuming, so the snapshots are what it sees.
- Lines.Upper: `str.upper` is modelled for ASCII letters only. A Python 2 byte string under the default locale changes no other character.
- Process.ReportAsWritten and Process.Report: take the line after `line.strip()`. Stripping only removes separators at the ends, which `split` ignores anyway; this is not proved.
- The bare `except:` in `convert` also swallows exceptions other than a bad token, for example an interrupt. Only the failures of parsing a token are modelled.
- Integer widths: Python integers are unbounded, so no wrap-around arises; the model's `int` is unbounded too.
- Samples.FourOfAKindSample: proves that one discard pattern reaches the expected category, not that none of the other patterns ranks higher, which needs each of the line's 32 candidate hands classified.
- Samples.FullHouseSample: proves that one discard pattern reaches the expected category, not that none of the other patterns ranks higher, which needs each of the line's 32 candidate hands classified.
- Samples.FlushSample: proves that one discard pattern reaches the expected category, not that none of the other patterns ranks higher, which needs each of the line's 32 candidate hands classified.
- Samples.StraightSample: proves that one discard pattern reaches the expected category, not that none of the other patterns ranks higher, which needs each of the line's 32 candidate hands classified.
- Samples.ThreeOfAKindSample: proves that one discard pattern reaches the expected category, not that none of the other patterns ranks higher, which needs each of the line's 32 candidate hands classified.
- Samples.TwoPairsSample: proves that one discard pattern reaches the expected category, not that none of the other patterns ranks higher, which needs each of the line's 32 candidate hands classified.
- Samples.OnePairSample: proves that one discard pattern reaches the expected category, not that none of the other patterns ranks higher, which needs each of the line's 32 candidate hands classified.
- Samples.HighestCardSample: proves that one discard pattern reaches the expected category, not that none of the other patterns ranks higher, which needs each of the line's 32 candidate hands classified.

## Findings

| source | as written | input that shows it | evidently intended | confidence | as-written member | corrected member |
|---|---|---|---|---|---|---|
| python/poker.py:214-217 | `len(set(cards)) == 10` over `Card` objects, which have no `__eq__` or `__hash__`, so the set has one member per object and the test only counts the tokens | the line `TH JH QC QD QS QH KH AH 2S TH` (ten of hearts twice) is accepted and searched | refuse a line that repeats a card | not executed | Process.ValidateAcceptsDuplicates | Process.ValidateDistinct |
