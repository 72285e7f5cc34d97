/**
 * The vowel presence estimator of `WheelAI` (`_vowel_probabilities` in
 * ai/wheel_ai.py): for each unused vowel, the fraction of the candidate words
 * that contain it at least once. Fractions are exact reals.
 */
module VowelStats {
  import opened Letters

  /** How many of the words contain `v` at least once (a word counts once however often `v` occurs). */
  function CountContaining(words: seq<string>, v: char): (n: nat)
    ensures n <= |words|
  {
    if |words| == 0 then 0
    else CountContaining(words[..|words| - 1], v) + (if v in words[|words| - 1] then 1 else 0)
  }

  lemma {:induction false} CountContainingZero(words: seq<string>, v: char)
    ensures CountContaining(words, v) == 0 <==> forall w :: w in words ==> v !in w
  {
    if |words| > 0 {
      var init := words[..|words| - 1];
      CountContainingZero(init, v);
      assert words == init + [words[|words| - 1]];
      assert forall w :: w in words <==> w in init || w == words[|words| - 1];
    }
  }

  lemma {:induction false} CountContainingAll(words: seq<string>, v: char)
    ensures CountContaining(words, v) == |words| <==> forall w :: w in words ==> v in w
  {
    if |words| > 0 {
      var init := words[..|words| - 1];
      CountContainingAll(init, v);
      assert words == init + [words[|words| - 1]];
      assert forall w :: w in words <==> w in init || w == words[|words| - 1];
    }
  }

  /** The probability map the estimator returns, as a function of the candidates. */
  function Probabilities(candidates: seq<string>, used: set<char>): (probs: map<char, real>)
    ensures candidates == [] ==> probs == map[]
    ensures forall v :: v in probs ==> v in Vowels && v !in used
    ensures forall v :: v in probs ==>
      probs[v] == CountContaining(candidates, v) as real / |candidates| as real
  {
    if |candidates| == 0 then map[]
    else
      var total := |candidates|;
      map v | v in Vowels && v !in used && CountContaining(candidates, v) > 0 ::
        CountContaining(candidates, v) as real / total as real
  }

  /** A count out of a non-zero total, as an exact fraction. */
  lemma Fraction(n: nat, total: nat)
    requires 0 < n <= total
    ensures 0.0 < n as real / total as real <= 1.0
    ensures n as real / total as real == 1.0 <==> n == total
  {
    var q := n as real / total as real;
    assert q * total as real == n as real;
  }

  /** Every value is a probability in (0, 1]. */
  lemma ProbabilityBounds(candidates: seq<string>, used: set<char>, v: char)
    requires v in Probabilities(candidates, used)
    ensures 0.0 < Probabilities(candidates, used)[v] <= 1.0
  {
    Fraction(CountContaining(candidates, v), |candidates|);
  }

  /** The keys are exactly the unused vowels that occur in some candidate. */
  lemma ProbabilityKeys(candidates: seq<string>, used: set<char>, v: char)
    requires candidates != []
    ensures v in Probabilities(candidates, used) <==>
      v in Vowels && v !in used && exists w :: w in candidates && v in w
  {
    CountContainingZero(candidates, v);
  }

  /** A vowel has probability 1 exactly when every candidate contains it. */
  lemma ProbabilityOne(candidates: seq<string>, used: set<char>, v: char)
    requires v in Probabilities(candidates, used)
    ensures Probabilities(candidates, used)[v] == 1.0 <==> forall w :: w in candidates ==> v in w
  {
    CountContainingAll(candidates, v);
    Fraction(CountContaining(candidates, v), |candidates|);
  }

  /**
   * When the board leaves a single candidate, every unused vowel of that word
   * has probability 1 and every other vowel is absent from the map.
   */
  lemma SingleCandidate(w: string, used: set<char>)
    ensures forall v :: v in Probabilities([w], used) <==> v in Vowels && v !in used && v in w
    ensures forall v :: v in Probabilities([w], used) ==> Probabilities([w], used)[v] == 1.0
  {
    forall v ensures v in Probabilities([w], used) <==> v in Vowels && v !in used && v in w {
      ProbabilityKeys([w], used, v);
    }
    forall v | v in Probabilities([w], used) ensures Probabilities([w], used)[v] == 1.0 {
      ProbabilityOne([w], used, v);
    }
  }

  /** Extending the prefix by one word adds one exactly when that word contains `v`. */
  lemma CountContainingStep(words: seq<string>, i: nat, v: char)
    requires i < |words|
    ensures CountContaining(words[..i + 1], v) ==
            CountContaining(words[..i], v) + (if v in words[i] then 1 else 0)
  {
    assert words[..i + 1][..i] == words[..i];
  }

  /**
   * The inner loop of `_vowel_probabilities`: adds one to the count of each
   * unused vowel that occurs in `w`, visiting the vowels in arbitrary order.
   */
  method CountVowelsOf(counts: map<char, nat>, w: string, used: set<char>) returns (next: map<char, nat>)
    ensures forall v :: v in next <==> v in counts || (v in Vowels && v !in used && v in w)
    ensures forall v :: v in next ==>
      next[v] == (if v in counts then counts[v] else 0) + (if v in Vowels && v !in used && v in w then 1 else 0)
  {
    next := counts;
    var remaining := Vowels;
    while remaining != {}
      invariant remaining <= Vowels
      invariant forall v :: v in remaining || v !in Vowels ==>
        (v in next <==> v in counts) && (v in next ==> next[v] == counts[v])
      invariant forall v :: v in Vowels && v !in remaining ==>
        && (v in next <==> v in counts || (v !in used && v in w))
        && (v in next ==> next[v] == (if v in counts then counts[v] else 0) + (if v !in used && v in w then 1 else 0))
      decreases remaining
    {
      var v :| v in remaining;
      if v !in used && v in w {
        next := next[v := (if v in next then next[v] else 0) + 1];
      }
      remaining := remaining - {v};
    }
  }

  /** `_vowel_probabilities`: counts with nested loops, then divides by the number of candidates. */
  method VowelProbabilities(candidates: seq<string>, used: set<char>) returns (probs: map<char, real>)
    ensures probs == Probabilities(candidates, used)
  {
    if |candidates| == 0 {
      return map[];
    }
    var counts: map<char, nat> := map[];
    var total := |candidates|;
    var i := 0;
    while i < |candidates|
      invariant 0 <= i <= |candidates|
      invariant forall v :: v in counts <==> v in Vowels && v !in used && CountContaining(candidates[..i], v) > 0
      invariant forall v :: v in counts ==> counts[v] == CountContaining(candidates[..i], v)
    {
      var w := candidates[i];
      forall v ensures CountContaining(candidates[..i + 1], v) ==
                       CountContaining(candidates[..i], v) + (if v in w then 1 else 0) {
        CountContainingStep(candidates, i, v);
      }
      counts := CountVowelsOf(counts, w, used);
      i := i + 1;
    }
    assert candidates[..i] == candidates;
    probs := map v | v in counts :: counts[v] as real / total as real;
  }
}
