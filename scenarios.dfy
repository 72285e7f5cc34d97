/**
 * Worked games for the decision engine, each stated as a lemma about
 * `ShouldBuyVowel` on concrete inputs.
 */
module Scenarios {
  import opened Wrappers
  import opened Letters
  import opened PatternMatch
  import opened VowelStats
  import opened FrequencyFallback
  import opened Engine

  lemma AppleBoardClean()
    ensures Clean("_ P P L E") == "_PPLE"
  {
    assert StripSpaces("_ P P L E") == "_PPLE";
  }

  lemma AppleBoardRevealed()
    ensures Revealed("_PPLE") == {'P', 'L', 'E'}
  {
    var clean := "_PPLE";
    assert forall c :: c in clean <==> c == '_' || c == 'P' || c == 'L' || c == 'E';
  }

  lemma AppleFits()
    ensures Fits("_PPLE", {'P', 'L', 'E'}, "APPLE")
  {
    AppleBoardRevealed();
  }

  /** No built-in word but APPLE fits the board. */
  lemma OthersDoNotFit()
    ensures forall u :: u in FallbackWords[1..] ==> u != "APPLE" && !Fits("_PPLE", {'P', 'L', 'E'}, u)
  {
    assert !Fits("_PPLE", {'P', 'L', 'E'}, "GRAPE") by {
      assert "GRAPE"[1] != "_PPLE"[1];
    }
  }

  lemma AppleOnce()
    ensures multiset(FallbackWords)["APPLE"] == 1
  {
    OthersDoNotFit();
    OnceAtHead(FallbackWords, "APPLE");
  }

  /** A word at the head of a list and nowhere after it occurs once. */
  lemma OnceAtHead(s: seq<string>, w: string)
    requires s != [] && s[0] == w && w !in s[1..]
    ensures multiset(s)[w] == 1
  {
    assert s == [s[0]] + s[1..];
  }

  /**
   * On the board "_ P P L E" with P, L and E used, a corpus that starts with
   * APPLE and holds no other fitting word yields exactly APPLE.
   */
  lemma AppleBoardCandidates(corpus: seq<string>)
    requires corpus != [] && corpus[0] == "APPLE"
    requires forall u :: u in corpus[1..] ==> u != "APPLE" && !Fits("_PPLE", {'P', 'L', 'E'}, u)
    ensures Candidates(corpus, "_ P P L E", {'P', 'L', 'E'}) == ["APPLE"]
  {
    var used := {'P', 'L', 'E'};
    assert UpperLetters(used);
    assert corpus == [corpus[0]] + corpus[1..];
    assert forall u :: u in corpus <==> u == corpus[0] || u in corpus[1..];
    AppleBoardClean();
    AppleFits();
    assert "APPLE" !in corpus[1..];
    assert multiset(corpus)["APPLE"] == 1;
    assert OnlyFit(corpus, Clean("_ P P L E"), used, "APPLE");
    UniqueFit(corpus, "_ P P L E", used, "APPLE");
  }

  lemma AppleProbabilities()
    ensures Probabilities(["APPLE"], {'P', 'L', 'E'}) == map['A' := 1.0]
  {
    SingleCandidate("APPLE", {'P', 'L', 'E'});
    assert 'A' in "APPLE" && 'I' !in "APPLE" && 'O' !in "APPLE" && 'U' !in "APPLE";
  }

  /**
   * Board "_ P P L E" with P, L and E used and 1000 in hand, against the
   * built-in word list: only APPLE fits, A is in every candidate, and the
   * engine buys A with certainty.
   */
  lemma ApplePuzzle()
    ensures ShouldBuyVowel(WheelAI(FallbackWords, DefaultVowelCost), "_ P P L E", {'P', 'L', 'E'}, 1000)
         == Recommendation(true, Some('A'), HighProbability, PatternMatching, 1.0)
  {
    var used := {'P', 'L', 'E'};
    assert UpperLetters(used);
    OthersDoNotFit();
    AppleBoardCandidates(FallbackWords);
    AppleProbabilities();
    AppleVerdict();
  }

  lemma AppleVerdict()
    ensures PatternVerdict(map['A' := 1.0], 1000) ==
            Recommendation(true, Some('A'), HighProbability, PatternMatching, 1.0)
  {
    var probs := map['A' := 1.0];
    assert 'A' in probs && probs.Keys <= Vowels;
    assert Best(probs) == 'A';
  }

  lemma BlankBoardStripped()
    ensures StripSpaces("_____") == "_____" && Clean("_____") == "_____"
    ensures CountChar("_____", '_') == 5
  {
  }

  lemma BlankBoardScores()
    ensures Scores("_____", {}) ==
      map['A' := 0.164, 'E' := 0.254, 'I' := 0.140, 'O' := 0.150, 'U' := 0.056]
  {
    BlankBoardStripped();
    assert InfoNeed("_____") == 1.0;
  }

  lemma BlankBoardVerdict()
    ensures FallbackVerdict(map['A' := 0.164, 'E' := 0.254, 'I' := 0.140, 'O' := 0.150, 'U' := 0.056])
         == Recommendation(true, Some('E'), SparsePuzzle, Fallback, 0.254)
  {
    var scores := map['A' := 0.164, 'E' := 0.254, 'I' := 0.140, 'O' := 0.150, 'U' := 0.056];
    assert 'E' in scores && scores.Keys <= Vowels;
    var b := Best(scores);
    assert scores[b] >= scores['E'];
  }

  /**
   * Five blanks, nothing used, 300 in hand, and a corpus without five-letter
   * words: the fallback path scores E at 0.127 * 1.0 * 2.0 = 0.254 > 0.15 and
   * buys it.
   */
  lemma BlankBoardFallback(corpus: seq<string>)
    requires forall w :: w in corpus ==> |w| != 5
    ensures ShouldBuyVowel(WheelAI(corpus, DefaultVowelCost), "_____", {}, 300)
         == Recommendation(true, Some('E'), SparsePuzzle, Fallback, 0.254)
  {
    BlankBoardStripped();
    NoFitNoCandidates(corpus, "_____", {});
    BlankBoardScores();
    BlankBoardVerdict();
  }

  /** With less money than a vowel costs the answer is a Finance rejection, whatever the board. */
  lemma BrokePlayer(corpus: seq<string>, boardPattern: string, used: set<char>)
    requires UpperLetters(used)
    ensures ShouldBuyVowel(WheelAI(corpus, DefaultVowelCost), boardPattern, used, 100)
         == Recommendation(false, None, InsufficientMoney, Finance, 1.0)
  {
  }

  /**
   * Once every vowel is used, neither path has a vowel to offer: the answer is
   * a rejection without a suggestion.
   */
  lemma AllVowelsUsed(ai: WheelAI, boardPattern: string, used: set<char>, money: int)
    requires UpperLetters(used) && Vowels <= used
    requires money >= ai.vowelCost
    ensures var r := ShouldBuyVowel(ai, boardPattern, used, money);
            && !r.decision && r.suggestedVowel == None
            && (r.reason == NoVowelsInCandidates || r.reason == NoValidVowels)
  {
    if Candidates(ai.corpus, boardPattern, used) == [] {
      assert Scores(boardPattern, used) == map[];
    }
  }
}
