# WheelAI vowel-purchase engine in Dafny

This project models the decision engine of `WheelAI` (`ai/wheel_ai.py`), a
Wheel of Fortune helper that decides whether a player should buy a vowel. It
proves properties of that model. The engine gets a board pattern (revealed
letters, `_` for blanks, spaces between positions), the set of letters already
used, and the player's money. It answers with a recommendation: buy or not,
which vowel, why, by which strategy, and with what confidence.

The engine has four parts, one module each, plus shared modules:

- `Letters` (`letters.dfy`): the vowel set, ASCII `isalpha` and `upper`, and
  the upper-case alphabet.
- `PatternMatch` (`pattern.dfy`): `_generate_regex` and `_get_candidates`.
  - The board is cleaned: spaces are removed and letters upper-cased.
  - The excluded letters are the revealed letters together with the used
    ones.
  - The regular expression is a sequence of tokens: `AnyChar` for `.`,
    `NoneOf` for `[^...]`, and literal letters or escaped characters.
  - `GenerateMatcher` is the loop that builds the token sequence. It is
    proved equal to the function `Compile`.
  - `CompileFits` proves that the compiled pattern accepts exactly the words
    that satisfy `Fits`. `Fits` is an independent reading of the board,
    position by position.
  - `Candidates` filters the corpus in order.
- `VowelStats` (`probability.dfy`): `_vowel_probabilities`.
  - For each unused vowel it gives the fraction of candidates that contain
    that vowel at least once.
  - A vowel with a zero count is absent from the map.
  - `VowelProbabilities` is the counting loop over the candidates, and its
    inner loop over the vowels is the method `CountVowelsOf`. It is proved
    equal to the function `Probabilities`.
- `FrequencyFallback` (`fallback.dfy`): `_fallback_stats`.
  - Each unused vowel gets the score frequency × hidden fraction × 2.0.
  - The hidden fraction is blanks over length, once spaces are removed.
  - `FallbackStats` is the loop. It is proved equal to the function
    `Scores`.
- `Engine` (`engine.dfy`): `should_buy_vowel`, the five-branch cascade.
  - The branches are: the finance gate, then the pattern path (no vowel,
    ≥ 0.70, aggressive, reject), then the fallback path (no vowel, > 0.15).
  - `WheelAI` holds the configuration that `__init__` sets and never
    changes: the corpus and the vowel cost.
  - `FallbackWords` is the built-in word list.
- `Scenarios` (`scenarios.dfy`): four worked games.
  - An APPLE board answered by pattern matching.
  - A blank board answered by the fallback.
  - A player without enough money.
  - A round in which every vowel has been used.

## Model

| member | source | states |
|---|---|---|
| PatternMatch.StripSpaces | ai/wheel_ai.py:52 | the result holds exactly the non-space characters of the board and is no longer than it |
| PatternMatch.Clean | ai/wheel_ai.py:52 | the cleaned board is the space-stripped board upper-cased position by position; none of its characters is a space or a lower-case letter |
| PatternMatch.StripSpacesConcat | ai/wheel_ai.py:52 | removing spaces from a concatenation is the concatenation of the two stripped parts |
| PatternMatch.StripSpacesNoSpace | ai/wheel_ai.py:52 | a text without spaces is unchanged, and a single space becomes the empty text |
| PatternMatch.Upper | ai/wheel_ai.py:52 | `upper` keeps the length and upper-cases each character in place |
| Letters.ToUpper | ai/wheel_ai.py:52 | a lower-case ASCII letter becomes the upper-case letter 32 code points below it; anything else is unchanged; a character is an ASCII letter exactly when its upper-case form is an upper-case letter |
| PatternMatch.Revealed | ai/wheel_ai.py:54 | a character is revealed exactly when it appears on the cleaned board and is a letter |
| PatternMatch.Excluded | ai/wheel_ai.py:54-56 | `revealed ∪ (used − revealed)` is the union of the revealed and the used letters |
| PatternMatch.Exclusion | ai/wheel_ai.py:59-62 | the blank token accepts a character exactly when it is not excluded; with nothing excluded that means any character |
| PatternMatch.TokenFor | ai/wheel_ai.py:65-71 | a blank takes the exclusion token; any other character, letter or escaped, matches exactly itself |
| PatternMatch.Compile | ai/wheel_ai.py:59-72 | one token per cleaned character; a blank accepts exactly the non-excluded characters, and any other position accepts exactly the board's character |
| PatternMatch.CompileFits | ai/wheel_ai.py:59-72 | the compiled anchored pattern accepts a word exactly when the word fits the board: same length, equal at every non-blank position, and at a blank neither a revealed nor a used letter |
| PatternMatch.GenerateMatcher | ai/wheel_ai.py:50-74 | the loop over the cleaned board yields the compiled pattern, and that pattern accepts exactly the words that fit the board |
| PatternMatch.Filter | ai/wheel_ai.py:79 | a word is kept exactly when it is in the corpus and the pattern accepts it; the result is no longer than the corpus |
| PatternMatch.FilterIsSubsequence | ai/wheel_ai.py:79 | the kept words appear in corpus order |
| PatternMatch.FilterKeepsMultiplicity | ai/wheel_ai.py:79 | an accepted word is kept as often as it occurs in the corpus; any other word is not kept at all |
| PatternMatch.Candidates | ai/wheel_ai.py:76-79 | a word is a candidate exactly when it is in the corpus and fits the board |
| PatternMatch.CandidatesInCorpusOrder | ai/wheel_ai.py:76-79 | the candidates are a subsequence of the corpus; each fitting word keeps its corpus multiplicity and every other word has multiplicity 0 |
| PatternMatch.UniqueFit | ai/wheel_ai.py:76-79 | when exactly one corpus word fits the board and it occurs once, the candidate list is that word alone |
| PatternMatch.CandidateShape | ai/wheel_ai.py:52-72 | a candidate has the cleaned board's length, equals it at every non-blank position, and holds no excluded letter at a blank |
| PatternMatch.BlankAcceptsAnything | ai/wheel_ai.py:59-62 | with nothing excluded every blank compiles to `.`, and a corpus word of the right length that agrees at the non-blank positions is a candidate |
| PatternMatch.NoCandidatesWhenAlphabetExcluded | ai/wheel_ai.py:59-62 | when the excluded letters cover the alphabet and a blank remains, an upper-case corpus gives an empty candidate list |
| PatternMatch.NoFitNoCandidates | ai/wheel_ai.py:79 | a corpus in which no word fits gives an empty candidate list |
| VowelStats.CountContaining | ai/wheel_ai.py:93-96 | the number of words containing the vowel, counting each word once, is at most the number of words |
| VowelStats.CountContainingZero | ai/wheel_ai.py:93-96 | a vowel's count is 0 exactly when no word contains it |
| VowelStats.CountContainingAll | ai/wheel_ai.py:93-96 | a vowel's count equals the number of words exactly when every word contains it |
| VowelStats.Probabilities | ai/wheel_ai.py:85-98 | no candidates give the empty map; every key is an unused vowel; each value is the number of candidates containing the vowel over the number of candidates |
| VowelStats.CountVowelsOf | ai/wheel_ai.py:94-96 | the inner loop adds one to the count of exactly the unused vowels that occur in the word, whatever order it visits the vowels in, and leaves every other count as it was |
| VowelStats.VowelProbabilities | ai/wheel_ai.py:85-98 | the outer loop over the candidates (with `CountVowelsOf` as its inner loop) and the final division yield exactly `Probabilities` |
| VowelStats.ProbabilityKeys | ai/wheel_ai.py:93-98 | for non-empty candidates, a vowel is a key exactly when it is unused and occurs in some candidate |
| VowelStats.ProbabilityBounds | ai/wheel_ai.py:98 | every value lies in (0, 1] |
| VowelStats.ProbabilityOne | ai/wheel_ai.py:98 | a value is 1 exactly when every candidate contains the vowel |
| VowelStats.SingleCandidate | ai/wheel_ai.py:85-98 | for one candidate, the keys are exactly its unused vowels, each with probability 1 |
| FrequencyFallback.Freq | ai/wheel_ai.py:118 | a vowel's frequency is its entry in the table of ai/wheel_ai.py:17-20; every frequency lies in (0, 0.127] |
| FrequencyFallback.CountChar | ai/wheel_ai.py:103 | `clean.count("_")` is at most the length of the board |
| FrequencyFallback.CountCharMultiplicity | ai/wheel_ai.py:103 | `clean.count("_")` is the number of occurrences of `_`, its multiplicity in the board |
| FrequencyFallback.CountCharZero | ai/wheel_ai.py:103 | the blank count is 0 exactly when the board has no blank |
| FrequencyFallback.InfoNeed | ai/wheel_ai.py:109-110 | `1 − density` equals blanks over length |
| FrequencyFallback.InfoNeedBounds | ai/wheel_ai.py:109-110 | the hidden fraction lies in [0, 1] |
| FrequencyFallback.InfoNeedPositive | ai/wheel_ai.py:109-110 | a board with a blank has a positive hidden fraction |
| FrequencyFallback.Scores | ai/wheel_ai.py:100-123 | a board that is empty once spaces are removed gives the empty map; otherwise the keys are the unused vowels; each score is frequency × (blanks / length) × 2.0 |
| FrequencyFallback.FallbackStats | ai/wheel_ai.py:100-123 | the loop over the vowels, skipping used ones, yields exactly `Scores` |
| FrequencyFallback.VowelScoreBounds | ai/wheel_ai.py:120 | `freq * info_need * 2.0` at a hidden fraction in [0, 1] lies between 0 and twice the frequency |
| FrequencyFallback.ScoreIsVowelScore | ai/wheel_ai.py:118-121 | every present score is `freq * info_need * 2.0` at the board's hidden fraction |
| FrequencyFallback.ScoreValue | ai/wheel_ai.py:120 | a score is frequency × hidden fraction × 2.0 on a non-empty board |
| FrequencyFallback.ScoreBounds | ai/wheel_ai.py:118-121 | every score lies in [0, 0.254] |
| FrequencyFallback.ScoreOrder | ai/wheel_ai.py:118-121 | while a blank remains, a vowel scores no higher than another only if its frequency is no higher |
| FrequencyFallback.NoBlanksScoreZero | ai/wheel_ai.py:103-121 | on a board without a blank every score is 0 |
| Engine.FirstBest | ai/wheel_ai.py:168 | returns the first position in the given order that holds a key of largest value, or -1 when no listed key is in the map |
| Engine.Best | ai/wheel_ai.py:168 | `max(m, key=m.get)` on a non-empty vowel map is a key whose value no other key exceeds; every key before it in the order A, E, I, O, U has a strictly smaller value |
| Engine.PatternVerdictFor | ai/wheel_ai.py:171-196 | suggests the vowel at its probability; buys exactly when p ≥ 0.70, or money > 2000 and p > 0.40; the strategy is Aggressive exactly in the second case without the first; the reason is HighProbability exactly when p ≥ 0.70, AggressiveOdds exactly with the Aggressive strategy, LowProbability exactly on rejection |
| Engine.PatternVerdict | ai/wheel_ai.py:156-196 | an empty map gives a rejection with no vowel at confidence 0.9; otherwise the suggestion has maximal probability, confidence is that probability, and the thresholds decide the decision, strategy and reason as above |
| Engine.FallbackVerdict | ai/wheel_ai.py:199-228 | an empty map gives a rejection with no vowel at confidence 1.0; otherwise the suggestion has maximal score, confidence is that score, and the vowel is bought exactly when the score is above 0.15, with reason SparsePuzzle, and otherwise rejected with reason LowValue; the strategy is always Fallback |
| Engine.ShouldBuyVowel | ai/wheel_ai.py:129-228 | money below the vowel cost gives the Finance rejection; the strategy is Finance exactly then; a pattern strategy is used exactly when money suffices and there are candidates; a suggested vowel is an unused vowel; buying implies a suggestion |
| Engine.PatternPathNoVowel | ai/wheel_ai.py:156-166 | on the pattern path there is no suggestion exactly when no unused vowel occurs in any candidate, and the answer is then the 0.9 rejection |
| Engine.PatternPathBest | ai/wheel_ai.py:168-196 | a suggested vowel occurs in some candidate and in at least as many candidates as any unused vowel; its confidence is its candidate fraction; the decision and Aggressive rules hold exactly; the reason is HighProbability exactly when p ≥ 0.70, AggressiveOdds exactly with the Aggressive strategy, LowProbability exactly on rejection |
| Engine.FallbackPathNoVowel | ai/wheel_ai.py:199-208 | with no candidates the strategy is Fallback, and there is no suggestion exactly when the stripped board is empty or every vowel is used; the answer is then the 1.0 rejection |
| Engine.FallbackVerdictBest | ai/wheel_ai.py:210-228 | a fallback suggestion scores frequency × hidden fraction × 2.0, within [0, 0.254]; no unused vowel scores higher, and while a blank remains none has a higher frequency; the vowel is bought exactly above 0.15 |
| Engine.FallbackPathBest | ai/wheel_ai.py:198-228 | the same facts for the fallback branch of `should_buy_vowel`, and the reason is SparsePuzzle exactly when the vowel is bought and LowValue exactly when it is not |
| Engine.TieBreakIrrelevant | ai/wheel_ai.py:168 | any other vowel of maximal probability gives the same decision, reason, strategy and confidence, so the tie-break affects only the suggested vowel |
| Engine.FallbackTieBreakIrrelevant | ai/wheel_ai.py:210-228 | any vowel of maximal score settles the fallback verdict: confidence is its score, the vowel is bought exactly above 0.15, and the reason is SparsePuzzle or LowValue accordingly |
| Engine.FinanceMonotone | ai/wheel_ai.py:143-151 | with more money a Finance rejection can only disappear, never appear |
| Scenarios.AppleBoardClean | ai/wheel_ai.py:52 | `"_ P P L E"` cleans to `"_PPLE"` |
| Scenarios.OthersDoNotFit | ai/wheel_ai.py:40-44 | no built-in word except APPLE fits `"_PPLE"` with P, L and E used |
| Scenarios.AppleOnce | ai/wheel_ai.py:40-44 | APPLE occurs once in the built-in list |
| Scenarios.AppleBoardCandidates | ai/wheel_ai.py:76-79 | a corpus that starts with APPLE and holds no other fitting word has the candidate list `["APPLE"]` for that board |
| Scenarios.AppleProbabilities | ai/wheel_ai.py:85-98 | for candidate APPLE with P, L and E used, the probability map is `{A: 1.0}` |
| Scenarios.AppleVerdict | ai/wheel_ai.py:168-179 | `{A: 1.0}` with 1000 in hand buys A with high probability at confidence 1.0 |
| Scenarios.ApplePuzzle | ai/wheel_ai.py:129-179 | on the built-in list, `"_ P P L E"` with P, L and E used and 1000 in hand buys A by pattern matching at confidence 1.0 |
| Scenarios.BlankBoardScores | ai/wheel_ai.py:100-123 | five blanks with nothing used score A 0.164, E 0.254, I 0.140, O 0.150 and U 0.056 |
| Scenarios.BlankBoardVerdict | ai/wheel_ai.py:210-220 | those scores buy E as a sparse puzzle at confidence 0.254 |
| Scenarios.BlankBoardFallback | ai/wheel_ai.py:129-220 | five blanks, nothing used, 300 in hand and no five-letter word in the corpus: the fallback buys E at 0.254 |
| Scenarios.BrokePlayer | ai/wheel_ai.py:143-151 | with 100 in hand and the default cost of 250, every board gives the Finance rejection |
| Scenarios.AllVowelsUsed | ai/wheel_ai.py:156-208 | once every vowel is used and money suffices, the answer is a rejection without a suggestion, for lack of vowels |

## Left out

- `_load_dictionary` (ai/wheel_ai.py:26-44) is not modelled. It does filesystem checks, file reading, a bare `except` and a warning `print`. The corpus is a parameter of `WheelAI`, and the built-in list is the constant `FallbackWords`.
- The `re` machinery is replaced by the token sequence and its matching predicate. This covers compiling, `re.escape`, the character-class syntax and `match`.
- `.` and `$` are read as "any character" and "end of word". In Python `.` does not match a newline and `$` also accepts one trailing newline. Loaded words are stripped, so neither case can arise.
- `GenerateMatcher`, `Candidates` and `ShouldBuyVowel` require the used letters to be single upper-case A–Z characters.
  - The source puts them unescaped into the `[^...]` class. There `]` ends the class early unless it sorts first, `\` escapes the next character, `-` between two other characters forms a range (`{'+', '-', 'A'}` gives `[^+-A]`), and a multi-character entry adds all its characters. Each of these changes the expression's meaning. A `^` after the opening `[^` is literal.
  - A lower-case letter inside the class would stay literal, and `NoneOf` would model it exactly. Lower case is excluded by choice, because callers pass upper-case letters.
- `isalpha` and `upper` are taken on ASCII only. Other Unicode letters are not modelled.
- Probabilities, frequencies, scores and thresholds are exact reals. Floating-point rounding is not modelled, so a score within rounding distance of a threshold may compare differently in the source.
- Reasons are tags of the `Reason` datatype. The formatted message strings, including the `f"{confidence:.1%}"` percentages, are not modelled.
- Engine.Best: `max(..., key=...)` picks the first maximal key in the dictionary's insertion order, which Python does not fix.
  - On the pattern path the dictionary is built from `counts`. A vowel is inserted when it is first counted: candidates in order, and within one candidate in the iteration order of the hash-ordered vowel set (ai/wheel_ai.py:93-98).
  - On the fallback path vowels are inserted in the vowel set's iteration order (ai/wheel_ai.py:114-121).
  - The model takes the first maximal vowel in the order A, E, I, O, U, as a refinement.
  - `TieBreakIrrelevant` (pattern path) and `FallbackTieBreakIrrelevant` (fallback path) show that only the suggested vowel depends on this choice.
  - The other path lemmas state only "some maximal vowel".
- FrequencyFallback.InfoNeed follows the code: spaces are removed before the length is taken (ai/wheel_ai.py:102-104), so they do not count toward the total. A description that counts spaces as filled positions would give a smaller hidden fraction.
- Thresholds, weights and the frequency table are fixed constants, as in the code. They cannot be configured.
- Money and the vowel cost are unbounded integers. The source compares them as Python numbers.
