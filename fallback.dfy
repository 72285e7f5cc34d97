/**
 * The fallback estimator of `WheelAI` (`_fallback_stats` in ai/wheel_ai.py),
 * used when no corpus word fits the board: a score per unused vowel from a
 * fixed table of English vowel frequencies, weighted by the hidden fraction
 * of the board. All numbers are exact reals.
 */
module FrequencyFallback {
  import opened Letters
  import opened PatternMatch

  /** `self.general_vowel_freq` */
  const GeneralVowelFreq: map<char, real> :=
    map['A' := 0.082, 'E' := 0.127, 'I' := 0.070, 'O' := 0.075, 'U' := 0.028]

  /** The default of `general_vowel_freq.get(v, 0.05)`. */
  const DefaultFreq: real := 0.05

  /** The calibration weight for an assumed one to two occurrences per word. */
  const OccurrenceWeight: real := 2.0

  /** The largest score the estimator can give: that of E on a board of blanks. */
  const MaxScore: real := 0.254

  function Freq(v: char): (f: real)
    ensures v in Vowels ==> f == GeneralVowelFreq[v]
    ensures 0.0 < f <= 0.127
  {
    if v in GeneralVowelFreq then GeneralVowelFreq[v] else DefaultFreq
  }

  /** `s.count(c)` for a single character. */
  function CountChar(s: string, c: char): (n: nat)
    ensures n <= |s|
  {
    if |s| == 0 then 0
    else (if s[0] == c then 1 else 0) + CountChar(s[1..], c)
  }

  /** `s.count(c)` is the number of occurrences of `c` in `s`. */
  lemma {:induction false} CountCharMultiplicity(s: string, c: char)
    ensures CountChar(s, c) == multiset(s)[c]
  {
    if |s| > 0 {
      assert s == [s[0]] + s[1..];
      CountCharMultiplicity(s[1..], c);
    }
  }

  lemma {:induction false} CountCharZero(s: string, c: char)
    ensures CountChar(s, c) == 0 <==> c !in s
  {
    if |s| > 0 {
      CountCharZero(s[1..], c);
      assert c in s <==> s[0] == c || c in s[1..];
    }
  }

  lemma OneMinusFilled(total: real, blanks: real)
    requires total > 0.0
    ensures 1.0 - (total - blanks) / total == blanks / total
  {
    assert (total - blanks) / total == total / total - blanks / total;
  }

  /** `1 - density`, where density is the filled-in fraction of the board. */
  function InfoNeed(clean: string): (need: real)
    requires |clean| > 0
    ensures need == CountChar(clean, '_') as real / |clean| as real
  {
    var total := |clean|;
    var blanks := CountChar(clean, '_');
    var density := (total - blanks) as real / total as real;
    OneMinusFilled(total as real, blanks as real);
    1.0 - density
  }

  /** The hidden fraction lies in [0, 1]. */
  lemma InfoNeedBounds(clean: string)
    requires |clean| > 0
    ensures 0.0 <= InfoNeed(clean) <= 1.0
  {
    var total := |clean| as real;
    var blanks := CountChar(clean, '_') as real;
    assert InfoNeed(clean) * total == blanks;
  }

  /** `freq * info_need * 2.0`: the expected-value score of one vowel. */
  function VowelScore(v: char, infoNeed: real): real {
    Freq(v) * infoNeed * OccurrenceWeight
  }

  /** A vowel's score at a hidden fraction in [0, 1] lies between 0 and twice its frequency. */
  lemma VowelScoreBounds(v: char, infoNeed: real)
    requires 0.0 <= infoNeed <= 1.0
    ensures 0.0 <= VowelScore(v, infoNeed) <= 2.0 * Freq(v)
  {
    var f := Freq(v);
    assert f * infoNeed <= f * 1.0;
  }

  /** The score map the estimator returns, as a function of its inputs. */
  function Scores(boardPattern: string, used: set<char>): (scores: map<char, real>)
    ensures StripSpaces(boardPattern) == [] ==> scores == map[]
    ensures StripSpaces(boardPattern) != [] ==> scores.Keys == Vowels - used
    ensures forall v :: v in scores ==>
      scores[v] == Freq(v) * (CountChar(StripSpaces(boardPattern), '_') as real /
                              |StripSpaces(boardPattern)| as real) * 2.0
  {
    var clean := StripSpaces(boardPattern);
    if |clean| == 0 then map[]
    else
      var need := InfoNeed(clean);
      var scores := map v | v in Vowels && v !in used :: VowelScore(v, need);
      assert need == CountChar(clean, '_') as real / |clean| as real;
      scores
  }

  /** An unused vowel's score, in terms of the hidden fraction of the board. */
  lemma ScoreValue(boardPattern: string, used: set<char>, v: char)
    requires v in Scores(boardPattern, used)
    ensures StripSpaces(boardPattern) != []
    ensures Scores(boardPattern, used)[v] == Freq(v) * InfoNeed(StripSpaces(boardPattern)) * 2.0
  {
  }

  /** Every score lies in [0, 0.254]. */
  lemma ScoreBounds(boardPattern: string, used: set<char>, v: char)
    requires v in Scores(boardPattern, used)
    ensures 0.0 <= Scores(boardPattern, used)[v] <= MaxScore
  {
    var clean := StripSpaces(boardPattern);
    InfoNeedBounds(clean);
    var need := InfoNeed(clean);
    var f := Freq(v);
    assert f * need <= f * 1.0;
  }

  /** A present score is the vowel's score at the board's hidden fraction. */
  lemma ScoreIsVowelScore(boardPattern: string, used: set<char>, v: char)
    requires v in Scores(boardPattern, used)
    ensures StripSpaces(boardPattern) != []
    ensures Scores(boardPattern, used)[v] == VowelScore(v, InfoNeed(StripSpaces(boardPattern)))
  {
  }

  /** A board with a blank has a positive hidden fraction. */
  lemma InfoNeedPositive(clean: string)
    requires '_' in clean
    ensures |clean| > 0 && InfoNeed(clean) > 0.0
  {
    CountCharZero(clean, '_');
  }

  /** While the board has a blank, scores rank the vowels as their frequencies do. */
  lemma ScoreOrder(boardPattern: string, used: set<char>, u: char, v: char)
    requires '_' in StripSpaces(boardPattern)
    requires u in Scores(boardPattern, used) && v in Scores(boardPattern, used)
    requires Scores(boardPattern, used)[u] <= Scores(boardPattern, used)[v]
    ensures Freq(u) <= Freq(v)
  {
    var clean := StripSpaces(boardPattern);
    InfoNeedPositive(clean);
    ScoreIsVowelScore(boardPattern, used, u);
    ScoreIsVowelScore(boardPattern, used, v);
    ScaledOrder(u, v, InfoNeed(clean));
  }

  /** At a positive hidden fraction, scores compare as frequencies do. */
  lemma ScaledOrder(u: char, v: char, need: real)
    requires need > 0.0
    requires VowelScore(u, need) <= VowelScore(v, need)
    ensures Freq(u) <= Freq(v)
  {
    var fu, fv := Freq(u), Freq(v);
    assert fu * need * OccurrenceWeight <= fv * need * OccurrenceWeight;
  }

  /** A board with no blank left gives every unused vowel the score 0. */
  lemma NoBlanksScoreZero(boardPattern: string, used: set<char>, v: char)
    requires '_' !in boardPattern
    requires v in Scores(boardPattern, used)
    ensures Scores(boardPattern, used)[v] == 0.0
  {
    CountCharZero(StripSpaces(boardPattern), '_');
  }

  /** `_fallback_stats`: fills the score map one vowel at a time. */
  method FallbackStats(boardPattern: string, used: set<char>) returns (scores: map<char, real>)
    ensures scores == Scores(boardPattern, used)
  {
    var clean := StripSpaces(boardPattern);
    var blanks := CountChar(clean, '_');
    var total := |clean|;
    if total == 0 {
      return map[];
    }
    var density := (total - blanks) as real / total as real;
    var infoNeed := 1.0 - density;
    assert infoNeed == InfoNeed(clean) by {
      OneMinusFilled(total as real, blanks as real);
    }
    scores := map[];
    var remaining := Vowels;
    while remaining != {}
      invariant remaining <= Vowels
      invariant scores.Keys == (Vowels - remaining) - used
      invariant forall v :: v in scores ==> scores[v] == VowelScore(v, infoNeed)
      decreases remaining
    {
      var v :| v in remaining;
      remaining := remaining - {v};
      if v in used {
        continue;
      }
      var freq := Freq(v);
      var score := freq * infoNeed * OccurrenceWeight;
      assert score == VowelScore(v, infoNeed);
      scores := scores[v := score];
    }
    var expected := Scores(boardPattern, used);
    assert scores.Keys == expected.Keys;
    assert forall v :: v in scores ==> scores[v] == expected[v];
  }
}
