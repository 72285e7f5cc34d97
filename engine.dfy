/**
 * The decision engine of `WheelAI` (`should_buy_vowel` in ai/wheel_ai.py):
 * five ordered branches that turn the board, the used letters and the
 * player's money into a recommendation.
 */
module Engine {
  import opened Wrappers
  import opened Letters
  import opened PatternMatch
  import opened VowelStats
  import opened FrequencyFallback

  /** The strategy label of a recommendation. */
  datatype Strategy = Finance | PatternMatching | PatternMatchingAggressive | Fallback

  /** Which of the source's reason messages a recommendation carries. */
  datatype Reason =
    | InsufficientMoney      // "Insufficient money to buy a vowel."
    | NoVowelsInCandidates   // "Pattern match: No vowels appear in candidates."
    | HighProbability        // "High probability ... from pattern matching."
    | AggressiveOdds         // "Aggressive strategy enabled by high money and decent odds."
    | LowProbability         // "Low probability (...). Better to spin."
    | NoValidVowels          // "No valid vowels remaining."
    | SparsePuzzle           // "Statistical fallback: vowel likely & puzzle is sparse."
    | LowValue               // "Statistical fallback indicates low value."

  datatype Recommendation = Recommendation(
    decision: bool,
    suggestedVowel: Option<char>,
    reason: Reason,
    strategy: Strategy,
    confidence: real)

  /** The engine's configuration: the dictionary it matches against and the price of a vowel. */
  datatype WheelAI = WheelAI(corpus: seq<string>, vowelCost: int)

  const DefaultVowelCost: int := 250
  const HighThreshold: real := 0.70
  const AggressiveMoney: int := 2000
  const AggressiveThreshold: real := 0.40
  const FallbackThreshold: real := 0.15
  const NoVowelConfidence: real := 0.9
  const CertainConfidence: real := 1.0

  /** The built-in word list the loader falls back to. */
  const FallbackWords: seq<string> := [
    "APPLE", "BANANA", "PYTHON", "COMPUTER", "ALGORITHM",
    "ORANGE", "GRAPE", "CHERRY", "STRAWBERRY", "MOONLIGHT",
    "SUNSHINE", "TELEPHONE", "JOURNEY", "DATABASE", "KEYBOARD"
  ]

  /**
   * The position in `order` of the first key of `m` with the largest value,
   * or -1 when no key of `m` is listed.
   */
  function FirstBest(m: map<char, real>, order: seq<char>): (j: int)
    ensures -1 <= j < |order|
    ensures j == -1 <==> forall k :: 0 <= k < |order| ==> order[k] !in m
    ensures 0 <= j ==> order[j] in m
    ensures 0 <= j ==> forall k :: 0 <= k < |order| && order[k] in m ==> m[order[k]] <= m[order[j]]
    ensures 0 <= j ==> forall k :: 0 <= k < j && order[k] in m ==> m[order[k]] < m[order[j]]
  {
    if |order| == 0 then -1
    else
      var j := FirstBest(m, order[1..]);
      if order[0] !in m then (if j < 0 then -1 else j + 1)
      else if 0 <= j && m[order[j + 1]] > m[order[0]] then j + 1
      else 0
  }

  /**
   * `max(m, key=m.get)`: a vowel of largest value. Among equal values the
   * first in A, E, I, O, U order is taken.
   */
  function Best(m: map<char, real>): (b: char)
    requires m != map[] && m.Keys <= Vowels
    ensures b in m
    ensures forall v :: v in m ==> m[v] <= m[b]
    ensures forall j, k :: 0 <= k < j < |VowelOrder| && VowelOrder[j] == b && VowelOrder[k] in m ==>
      m[VowelOrder[k]] < m[b]
  {
    assert forall u :: u in m ==>
      u == VowelOrder[0] || u == VowelOrder[1] || u == VowelOrder[2] || u == VowelOrder[3] || u == VowelOrder[4];
    var v :| v in m;
    assert v in VowelOrder;
    VowelOrder[FirstBest(m, VowelOrder)]
  }

  /** The outcome once the pattern path has settled on `best`, of probability `p`. */
  function PatternVerdictFor(best: char, p: real, money: int): (r: Recommendation)
    ensures r.suggestedVowel == Some(best) && r.confidence == p
    ensures r.decision <==> p >= HighThreshold || (money > AggressiveMoney && p > AggressiveThreshold)
    ensures r.strategy == PatternMatchingAggressive <==>
      p < HighThreshold && money > AggressiveMoney && p > AggressiveThreshold
    ensures r.strategy in {PatternMatching, PatternMatchingAggressive}
    ensures r.reason == HighProbability <==> p >= HighThreshold
    ensures r.reason == AggressiveOdds <==> r.strategy == PatternMatchingAggressive
    ensures r.reason == LowProbability <==> !r.decision
    ensures r.reason in {HighProbability, AggressiveOdds, LowProbability}
  {
    if p >= HighThreshold then
      Recommendation(true, Some(best), HighProbability, PatternMatching, p)
    else if money > AggressiveMoney && p > AggressiveThreshold then
      Recommendation(true, Some(best), AggressiveOdds, PatternMatchingAggressive, p)
    else
      Recommendation(false, Some(best), LowProbability, PatternMatching, p)
  }

  /** The pattern-matching path, given the vowel probabilities of a non-empty candidate list. */
  function PatternVerdict(probs: map<char, real>, money: int): (r: Recommendation)
    requires probs.Keys <= Vowels
    ensures probs == map[] ==>
      r == Recommendation(false, None, NoVowelsInCandidates, PatternMatching, NoVowelConfidence)
    ensures probs != map[] ==>
      && r.suggestedVowel.Some? && r.suggestedVowel.value in probs
      && r.confidence == probs[r.suggestedVowel.value]
      && (forall v :: v in probs ==> probs[v] <= r.confidence)
      && (r.decision <==> r.confidence >= HighThreshold ||
                          (money > AggressiveMoney && r.confidence > AggressiveThreshold))
      && (r.strategy == PatternMatchingAggressive <==>
            r.confidence < HighThreshold && money > AggressiveMoney && r.confidence > AggressiveThreshold)
      && (r.reason == HighProbability <==> r.confidence >= HighThreshold)
      && (r.reason == AggressiveOdds <==> r.strategy == PatternMatchingAggressive)
      && (r.reason == LowProbability <==> !r.decision)
    ensures r.strategy in {PatternMatching, PatternMatchingAggressive}
  {
    if probs == map[] then
      Recommendation(false, None, NoVowelsInCandidates, PatternMatching, NoVowelConfidence)
    else
      var best := Best(probs);
      PatternVerdictFor(best, probs[best], money)
  }

  /** The fallback path, given the fallback scores. */
  function FallbackVerdict(scores: map<char, real>): (r: Recommendation)
    requires scores.Keys <= Vowels
    ensures scores == map[] ==>
      r == Recommendation(false, None, NoValidVowels, Fallback, CertainConfidence)
    ensures scores != map[] ==>
      && r.suggestedVowel.Some? && r.suggestedVowel.value in scores
      && r.confidence == scores[r.suggestedVowel.value]
      && (forall v :: v in scores ==> scores[v] <= r.confidence)
      && (r.decision <==> r.confidence > FallbackThreshold)
      && (r.reason == SparsePuzzle <==> r.decision)
      && (r.reason == LowValue <==> !r.decision)
    ensures r.strategy == Fallback
  {
    if scores == map[] then
      Recommendation(false, None, NoValidVowels, Fallback, CertainConfidence)
    else
      var best := Best(scores);
      var score := scores[best];
      if score > FallbackThreshold then
        Recommendation(true, Some(best), SparsePuzzle, Fallback, score)
      else
        Recommendation(false, Some(best), LowValue, Fallback, score)
  }

  /** `should_buy_vowel`: the master decision. */
  function ShouldBuyVowel(ai: WheelAI, boardPattern: string, used: set<char>, money: int): (r: Recommendation)
    requires UpperLetters(used)
    ensures money < ai.vowelCost ==>
      r == Recommendation(false, None, InsufficientMoney, Finance, CertainConfidence)
    ensures r.strategy == Finance <==> money < ai.vowelCost
    ensures r.strategy in {PatternMatching, PatternMatchingAggressive} <==>
      money >= ai.vowelCost && Candidates(ai.corpus, boardPattern, used) != []
    ensures r.suggestedVowel.Some? ==> r.suggestedVowel.value in Vowels && r.suggestedVowel.value !in used
    ensures r.decision ==> r.suggestedVowel.Some?
  {
    if money < ai.vowelCost then
      Recommendation(false, None, InsufficientMoney, Finance, CertainConfidence)
    else
      var candidates := Candidates(ai.corpus, boardPattern, used);
      if candidates != [] then
        PatternVerdict(Probabilities(candidates, used), money)
      else
        FallbackVerdict(Scores(boardPattern, used))
  }

  /** Comparing two fractions over the same positive total compares the counts. */
  lemma FractionOrder(a: nat, b: nat, total: nat)
    requires total > 0
    requires a as real / total as real <= b as real / total as real
    ensures a <= b
  {
    var t := total as real;
    assert (a as real / t) * t <= (b as real / t) * t;
  }

  /**
   * On the pattern path no vowel is suggested exactly when no unused vowel
   * occurs in any candidate; the answer is then a rejection at confidence 0.9.
   */
  lemma PatternPathNoVowel(ai: WheelAI, boardPattern: string, used: set<char>, money: int)
    requires UpperLetters(used)
    requires money >= ai.vowelCost
    requires Candidates(ai.corpus, boardPattern, used) != []
    ensures var candidates := Candidates(ai.corpus, boardPattern, used);
            var r := ShouldBuyVowel(ai, boardPattern, used, money);
            && (r.suggestedVowel.None? <==>
                  forall v, w :: v in Vowels && v !in used && w in candidates ==> v !in w)
            && (r.suggestedVowel.None? ==>
                  r == Recommendation(false, None, NoVowelsInCandidates, PatternMatching, NoVowelConfidence))
  {
    var candidates := Candidates(ai.corpus, boardPattern, used);
    var probs := Probabilities(candidates, used);
    forall v ensures v in probs <==> v in Vowels && v !in used && exists w :: w in candidates && v in w {
      ProbabilityKeys(candidates, used, v);
    }
  }

  /**
   * On the pattern path a suggested vowel occurs in some candidate, in at
   * least as many candidates as any other unused vowel, and its confidence is
   * the fraction of candidates that contain it.
   */
  lemma PatternPathBest(ai: WheelAI, boardPattern: string, used: set<char>, money: int)
    requires UpperLetters(used)
    requires money >= ai.vowelCost
    requires Candidates(ai.corpus, boardPattern, used) != []
    requires ShouldBuyVowel(ai, boardPattern, used, money).suggestedVowel.Some?
    ensures var candidates := Candidates(ai.corpus, boardPattern, used);
            var r := ShouldBuyVowel(ai, boardPattern, used, money);
            var b := r.suggestedVowel.value;
            && r.confidence == CountContaining(candidates, b) as real / |candidates| as real
            && (exists w :: w in candidates && b in w)
            && (forall v :: v in Vowels && v !in used ==>
                 CountContaining(candidates, v) <= CountContaining(candidates, b))
            && (r.decision <==> r.confidence >= HighThreshold ||
                                (money > AggressiveMoney && r.confidence > AggressiveThreshold))
            && (r.strategy == PatternMatchingAggressive <==>
                  r.confidence < HighThreshold && money > AggressiveMoney && r.confidence > AggressiveThreshold)
            && (r.reason == HighProbability <==> r.confidence >= HighThreshold)
            && (r.reason == AggressiveOdds <==> r.strategy == PatternMatchingAggressive)
            && (r.reason == LowProbability <==> !r.decision)
  {
    var candidates := Candidates(ai.corpus, boardPattern, used);
    var probs := Probabilities(candidates, used);
    var r := ShouldBuyVowel(ai, boardPattern, used, money);
    assert r == PatternVerdict(probs, money);
    var b := r.suggestedVowel.value;
    ProbabilityKeys(candidates, used, b);
    forall v | v in Vowels && v !in used
      ensures CountContaining(candidates, v) <= CountContaining(candidates, b)
    {
      if v in probs {
        FractionOrder(CountContaining(candidates, v), CountContaining(candidates, b), |candidates|);
      } else {
        ProbabilityKeys(candidates, used, v);
        CountContainingZero(candidates, v);
      }
    }
  }

  /**
   * On the fallback path no vowel is suggested exactly when the board is empty
   * once spaces are removed or every vowel is used; the answer is then a
   * certain rejection.
   */
  lemma FallbackPathNoVowel(ai: WheelAI, boardPattern: string, used: set<char>, money: int)
    requires UpperLetters(used)
    requires money >= ai.vowelCost
    requires Candidates(ai.corpus, boardPattern, used) == []
    ensures var r := ShouldBuyVowel(ai, boardPattern, used, money);
            && r.strategy == Fallback
            && (r.suggestedVowel.None? <==> StripSpaces(boardPattern) == [] || Vowels <= used)
            && (r.suggestedVowel.None? ==>
                  r == Recommendation(false, None, NoValidVowels, Fallback, CertainConfidence))
  {
    var scores := Scores(boardPattern, used);
    assert ShouldBuyVowel(ai, boardPattern, used, money) == FallbackVerdict(scores);
    if StripSpaces(boardPattern) != [] && !(Vowels <= used) {
      var v :| v in Vowels && v !in used;
      assert v in scores;
    }
  }

  /**
   * The fallback verdict on a board: a suggested vowel has the largest
   * frequency among the unused vowels whenever the board has a blank; its
   * confidence is frequency times hidden fraction (`InfoNeed`: blanks over
   * length) times two, lies in [0, 0.254], and the vowel is bought exactly
   * when that score exceeds 0.15.
   */
  lemma FallbackVerdictBest(boardPattern: string, used: set<char>, b: char)
    requires FallbackVerdict(Scores(boardPattern, used)).suggestedVowel == Some(b)
    ensures var r := FallbackVerdict(Scores(boardPattern, used));
            var clean := StripSpaces(boardPattern);
            && clean != []
            && r.confidence == Freq(b) * InfoNeed(clean) * 2.0
            && 0.0 <= r.confidence <= MaxScore
            && (forall v :: v in Vowels && v !in used ==>
                  v in Scores(boardPattern, used) && Scores(boardPattern, used)[v] <= r.confidence)
            && ('_' in clean ==> forall v :: v in Vowels && v !in used ==> Freq(v) <= Freq(b))
            && (r.decision <==> r.confidence > FallbackThreshold)
  {
    var scores := Scores(boardPattern, used);
    var clean := StripSpaces(boardPattern);
    ScoreValue(boardPattern, used, b);
    ScoreBounds(boardPattern, used, b);
    if '_' in clean {
      forall v | v in Vowels && v !in used ensures Freq(v) <= Freq(b) {
        ScoreOrder(boardPattern, used, v, b);
      }
    }
  }

  /** On the fallback path of `ShouldBuyVowel`, the verdict is the fallback verdict on the board. */
  lemma FallbackPathBest(ai: WheelAI, boardPattern: string, used: set<char>, money: int, b: char)
    requires UpperLetters(used)
    requires money >= ai.vowelCost
    requires Candidates(ai.corpus, boardPattern, used) == []
    requires ShouldBuyVowel(ai, boardPattern, used, money).suggestedVowel == Some(b)
    ensures var r := ShouldBuyVowel(ai, boardPattern, used, money);
            var clean := StripSpaces(boardPattern);
            && clean != []
            && r.confidence == Freq(b) * InfoNeed(clean) * 2.0
            && 0.0 <= r.confidence <= MaxScore
            && (forall v :: v in Vowels && v !in used ==>
                  v in Scores(boardPattern, used) && Scores(boardPattern, used)[v] <= r.confidence)
            && ('_' in clean ==> forall v :: v in Vowels && v !in used ==> Freq(v) <= Freq(b))
            && (r.decision <==> r.confidence > FallbackThreshold)
            && (r.reason == SparsePuzzle <==> r.decision)
            && (r.reason == LowValue <==> !r.decision)
  {
    assert ShouldBuyVowel(ai, boardPattern, used, money) == FallbackVerdict(Scores(boardPattern, used));
    FallbackVerdictBest(boardPattern, used, b);
  }

  /**
   * The choice among equally good vowels changes only the suggested vowel:
   * any other vowel of largest probability yields the same decision, reason,
   * strategy and confidence.
   */
  lemma TieBreakIrrelevant(probs: map<char, real>, money: int, v: char)
    requires probs.Keys <= Vowels
    requires v in probs && forall u :: u in probs ==> probs[u] <= probs[v]
    ensures var r := PatternVerdict(probs, money);
            var s := PatternVerdictFor(v, probs[v], money);
            r.decision == s.decision && r.reason == s.reason &&
            r.strategy == s.strategy && r.confidence == s.confidence
  {
  }

  /**
   * The same for the fallback path: any other vowel of largest score yields
   * the same decision, reason, strategy and confidence.
   */
  lemma FallbackTieBreakIrrelevant(scores: map<char, real>, v: char)
    requires scores.Keys <= Vowels
    requires v in scores && forall u :: u in scores ==> scores[u] <= scores[v]
    ensures var r := FallbackVerdict(scores);
            && r.confidence == scores[v]
            && (r.decision <==> scores[v] > FallbackThreshold)
            && r.reason == (if scores[v] > FallbackThreshold then SparsePuzzle else LowValue)
            && r.strategy == Fallback
  {
  }

  /** Raising the player's money can only lift a Finance rejection, never cause one. */
  lemma FinanceMonotone(ai: WheelAI, boardPattern: string, used: set<char>, less: int, more: int)
    requires UpperLetters(used)
    requires less <= more
    ensures ShouldBuyVowel(ai, boardPattern, used, more).strategy == Finance ==>
            ShouldBuyVowel(ai, boardPattern, used, less).strategy == Finance
  {
  }
}
