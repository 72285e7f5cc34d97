/**
 * Characters and letter sets shared by every part of the decision engine
 * (ai/wheel_ai.py). Only ASCII letters are modelled: `isalpha` and `upper`
 * are taken on the ASCII range.
 */
module Letters {

  /** `self.vowels = set("AEIOU")` */
  const Vowels: set<char> := {'A', 'E', 'I', 'O', 'U'}

  /** The canonical vowel order, used to make the choice among equally good vowels deterministic. */
  const VowelOrder: seq<char> := ['A', 'E', 'I', 'O', 'U']

  predicate IsUpper(c: char) {
    'A' <= c <= 'Z'
  }

  predicate IsLower(c: char) {
    'a' <= c <= 'z'
  }

  /** `str.isalpha` on one ASCII character. */
  predicate IsAlpha(c: char) {
    IsUpper(c) || IsLower(c)
  }

  /** `str.upper` on one ASCII character: only lower-case letters change. */
  function ToUpper(c: char): (u: char)
    ensures IsAlpha(c) <==> IsUpper(u)
    ensures IsAlpha(c) <==> IsAlpha(u)
    ensures !IsLower(c) ==> u == c
    ensures IsLower(c) ==> u as int == c as int - ('a' as int - 'A' as int)
  {
    if IsLower(c) then (c as int - 32) as char else c
  }

  /** Every element is a single upper-case ASCII letter. */
  predicate UpperLetters(s: set<char>) {
    forall c :: c in s ==> IsUpper(c)
  }

  /** A word as the dictionary loader yields it: upper-case ASCII letters only. */
  predicate UpperWord(w: string) {
    forall i :: 0 <= i < |w| ==> IsUpper(w[i])
  }

  /** The upper-case ASCII alphabet. */
  function Alphabet(): (a: set<char>)
    ensures forall c :: c in a <==> IsUpper(c)
  {
    set c: char | IsUpper(c)
  }
}
