/**
 * The pattern compiler and the candidate filter of `WheelAI`
 * (`_generate_regex` and `_get_candidates` in ai/wheel_ai.py).
 *
 * The regular expression the source builds is modelled as a sequence of
 * tokens, one per position of the cleaned pattern; anchoring with `^` and `$`
 * is the requirement that a word has exactly one character per token.
 */
module PatternMatch {
  import opened Letters

  /** `s.replace(" ", "")` */
  function StripSpaces(s: string): (r: string)
    ensures |r| <= |s|
    ensures forall c :: c in r <==> c in s && c != ' '
  {
    if |s| == 0 then []
    else if s[0] == ' ' then StripSpaces(s[1..])
    else [s[0]] + StripSpaces(s[1..])
  }

  /** Removing spaces distributes over concatenation. */
  lemma {:induction false} StripSpacesConcat(a: string, b: string)
    ensures StripSpaces(a + b) == StripSpaces(a) + StripSpaces(b)
  {
    if |a| == 0 {
      assert a + b == b;
    } else {
      assert (a + b)[0] == a[0] && (a + b)[1..] == a[1..] + b;
      StripSpacesConcat(a[1..], b);
    }
  }

  /** A text without spaces is left as it is, and a single space disappears. */
  lemma {:induction false} StripSpacesNoSpace(s: string)
    ensures ' ' !in s ==> StripSpaces(s) == s
    ensures StripSpaces(" ") == []
  {
    if |s| > 0 && ' ' !in s {
      assert ' ' !in s[1..] by {
        assert forall c :: c in s[1..] ==> c in s;
      }
      StripSpacesNoSpace(s[1..]);
      assert s == [s[0]] + s[1..];
    }
  }

  /** `s.upper()` on ASCII text. */
  function Upper(s: string): (r: string)
    ensures |r| == |s|
    ensures forall i :: 0 <= i < |s| ==> r[i] == ToUpper(s[i])
  {
    seq(|s|, i requires 0 <= i < |s| => ToUpper(s[i]))
  }

  /** `board_pattern.replace(" ", "").upper()`: the normalised board. */
  function Clean(boardPattern: string): (clean: string)
    ensures |clean| == |StripSpaces(boardPattern)|
    ensures forall i :: 0 <= i < |clean| ==> clean[i] == ToUpper(StripSpaces(boardPattern)[i])
    ensures forall i :: 0 <= i < |clean| ==> clean[i] != ' ' && !IsLower(clean[i])
  {
    var stripped := StripSpaces(boardPattern);
    assert forall i :: 0 <= i < |stripped| ==> stripped[i] in stripped;
    Upper(stripped)
  }

  /** The letters already shown on the board. */
  function Revealed(clean: string): (revealed: set<char>)
    ensures forall c :: c in revealed <==> c in clean && IsAlpha(c)
  {
    set c | c in clean && IsAlpha(c)
  }

  /** `revealed.union(used_letters - revealed)`: what a blank can never stand for. */
  function Excluded(clean: string, used: set<char>): (excluded: set<char>)
    ensures excluded == Revealed(clean) + used
  {
    var revealed := Revealed(clean);
    var dead := used - revealed;
    revealed + dead
  }

  /** One element of the compiled pattern. */
  datatype Token =
    | AnyChar                        // "." : a blank when nothing is excluded
    | NoneOf(excluded: set<char>)    // "[^...]" : a blank that avoids the excluded letters
    | Letter(c: char)                // a revealed letter, inserted as is
    | Escaped(c: char)               // any other character, through re.escape

  predicate TokenMatches(t: Token, ch: char) {
    match t
    case AnyChar => true
    case NoneOf(excluded) => ch !in excluded
    case Letter(c) => ch == c
    case Escaped(c) => ch == c
  }

  /** The anchored pattern `^...$` matches the whole word. */
  predicate MatchesAll(tokens: seq<Token>, w: string) {
    |w| == |tokens| && forall i :: 0 <= i < |w| ==> TokenMatches(tokens[i], w[i])
  }

  /** The token every blank compiles to. */
  function Exclusion(excluded: set<char>): (t: Token)
    ensures forall ch :: TokenMatches(t, ch) <==> ch !in excluded
  {
    if excluded != {} then NoneOf(excluded) else AnyChar
  }

  /** The token for one board character: a blank takes the exclusion, any other character matches only itself. */
  function TokenFor(c: char, exclusion: Token): (t: Token)
    ensures c == '_' ==> t == exclusion
    ensures c != '_' ==> forall ch :: TokenMatches(t, ch) <==> ch == c
  {
    if c == '_' then exclusion
    else if IsAlpha(c) then Letter(c)
    else Escaped(c)
  }

  /** The compiled pattern for a board and a set of used letters. */
  function Compile(boardPattern: string, used: set<char>): (tokens: seq<Token>)
    ensures |tokens| == |Clean(boardPattern)|
    ensures forall i, ch :: 0 <= i < |tokens| && Clean(boardPattern)[i] == '_' ==>
      (TokenMatches(tokens[i], ch) <==> ch !in Excluded(Clean(boardPattern), used))
    ensures forall i, ch :: 0 <= i < |tokens| && Clean(boardPattern)[i] != '_' ==>
      (TokenMatches(tokens[i], ch) <==> ch == Clean(boardPattern)[i])
  {
    var clean := Clean(boardPattern);
    var exclusion := Exclusion(Excluded(clean, used));
    seq(|clean|, i requires 0 <= i < |clean| => TokenFor(clean[i], exclusion))
  }

  /**
   * The direct positional reading of a board: same length, every non-blank
   * position agrees, and a blank holds neither a revealed nor a used letter.
   */
  predicate Fits(clean: string, used: set<char>, w: string) {
    && |w| == |clean|
    && forall i :: 0 <= i < |clean| ==>
         if clean[i] == '_' then w[i] !in Revealed(clean) && w[i] !in used
         else w[i] == clean[i]
  }

  /** The compiled pattern accepts exactly the words that fit the board. */
  lemma CompileFits(boardPattern: string, used: set<char>, w: string)
    ensures MatchesAll(Compile(boardPattern, used), w) <==> Fits(Clean(boardPattern), used, w)
  {
    var clean := Clean(boardPattern);
    var tokens := Compile(boardPattern, used);
    if |w| == |clean| {
      forall i | 0 <= i < |clean|
        ensures TokenMatches(tokens[i], w[i]) <==>
          if clean[i] == '_' then w[i] !in Revealed(clean) && w[i] !in used else w[i] == clean[i]
      {
      }
    }
  }

  /** `_generate_regex`: builds the pattern one position at a time. */
  method GenerateMatcher(boardPattern: string, used: set<char>) returns (tokens: seq<Token>)
    requires UpperLetters(used)
    ensures tokens == Compile(boardPattern, used)
    ensures forall w :: MatchesAll(tokens, w) <==> Fits(Clean(boardPattern), used, w)
  {
    var clean := Clean(boardPattern);
    var revealed := Revealed(clean);
    var dead := used - revealed;
    var excluded := revealed + dead;
    var exclusion := if excluded != {} then NoneOf(excluded) else AnyChar;
    tokens := [];
    var i := 0;
    while i < |clean|
      invariant 0 <= i <= |clean|
      invariant |tokens| == i
      invariant forall k :: 0 <= k < i ==> tokens[k] == TokenFor(clean[k], exclusion)
    {
      var c := clean[i];
      if c == '_' {
        tokens := tokens + [exclusion];
      } else if IsAlpha(c) {
        tokens := tokens + [Letter(c)];
      } else {
        tokens := tokens + [Escaped(c)];
      }
      i := i + 1;
    }
    forall w ensures MatchesAll(tokens, w) <==> Fits(clean, used, w) {
      CompileFits(boardPattern, used, w);
    }
  }

  /** `a` is `b` with some elements left out, in the same order. */
  predicate IsSubsequence(a: seq<string>, b: seq<string>)
    decreases |b|
  {
    if |a| == 0 then true
    else if |b| == 0 then false
    else (a[0] == b[0] && IsSubsequence(a[1..], b[1..])) || IsSubsequence(a, b[1..])
  }

  /** `[w for w in corpus if regex.match(w)]` */
  function Filter(corpus: seq<string>, tokens: seq<Token>): (r: seq<string>)
    ensures |r| <= |corpus|
    ensures forall w :: w in r <==> w in corpus && MatchesAll(tokens, w)
  {
    if |corpus| == 0 then []
    else
      assert forall w :: w in corpus <==> w == corpus[0] || w in corpus[1..];
      (if MatchesAll(tokens, corpus[0]) then [corpus[0]] else []) + Filter(corpus[1..], tokens)
  }

  lemma {:induction false} FilterIsSubsequence(corpus: seq<string>, tokens: seq<Token>)
    ensures IsSubsequence(Filter(corpus, tokens), corpus)
  {
    if |corpus| > 0 {
      var rest := Filter(corpus[1..], tokens);
      FilterIsSubsequence(corpus[1..], tokens);
      if MatchesAll(tokens, corpus[0]) {
        var r := [corpus[0]] + rest;
        assert r[1..] == rest;
      } else {
        var r := Filter(corpus, tokens);
        assert r == rest;
        if |r| > 0 {
          assert IsSubsequence(r, corpus[1..]);
        }
      }
    }
  }

  /** Every kept word is kept as often as it occurs in the corpus; the others not at all. */
  lemma {:induction false} FilterKeepsMultiplicity(corpus: seq<string>, tokens: seq<Token>, w: string)
    ensures multiset(Filter(corpus, tokens))[w] ==
      if MatchesAll(tokens, w) then multiset(corpus)[w] else 0
  {
    if |corpus| > 0 {
      FilterKeepsMultiplicity(corpus[1..], tokens, w);
      assert corpus == [corpus[0]] + corpus[1..];
      assert multiset(corpus) == multiset{corpus[0]} + multiset(corpus[1..]);
    }
  }

  /** `_get_candidates`: the corpus words that fit the board. */
  function Candidates(corpus: seq<string>, boardPattern: string, used: set<char>): (r: seq<string>)
    requires UpperLetters(used)
    ensures forall w :: w in r <==> w in corpus && Fits(Clean(boardPattern), used, w)
  {
    var tokens := Compile(boardPattern, used);
    assert forall w :: MatchesAll(tokens, w) <==> Fits(Clean(boardPattern), used, w) by {
      forall w ensures MatchesAll(tokens, w) <==> Fits(Clean(boardPattern), used, w) {
        CompileFits(boardPattern, used, w);
      }
    }
    Filter(corpus, tokens)
  }

  /**
   * The candidates keep corpus order, and each fitting word is kept exactly as
   * often as it occurs in the corpus.
   */
  lemma CandidatesInCorpusOrder(corpus: seq<string>, boardPattern: string, used: set<char>)
    requires UpperLetters(used)
    ensures IsSubsequence(Candidates(corpus, boardPattern, used), corpus)
    ensures forall w :: multiset(Candidates(corpus, boardPattern, used))[w] ==
                        if Fits(Clean(boardPattern), used, w) then multiset(corpus)[w] else 0
  {
    var tokens := Compile(boardPattern, used);
    FilterIsSubsequence(corpus, tokens);
    forall w ensures multiset(Filter(corpus, tokens))[w] ==
                     if Fits(Clean(boardPattern), used, w) then multiset(corpus)[w] else 0 {
      FilterKeepsMultiplicity(corpus, tokens, w);
      CompileFits(boardPattern, used, w);
    }
  }

  /** No corpus word other than `w` fits the board. */
  predicate OnlyFit(corpus: seq<string>, clean: string, used: set<char>, w: string) {
    forall u :: u in corpus && Fits(clean, used, u) ==> u == w
  }

  /**
   * When the board determines a single corpus word, occurring once, that word
   * is the whole candidate list.
   */
  lemma UniqueFit(corpus: seq<string>, boardPattern: string, used: set<char>, w: string)
    requires UpperLetters(used)
    requires multiset(corpus)[w] == 1 && Fits(Clean(boardPattern), used, w)
    requires OnlyFit(corpus, Clean(boardPattern), used, w)
    ensures Candidates(corpus, boardPattern, used) == [w]
  {
    var r := Candidates(corpus, boardPattern, used);
    CandidatesInCorpusOrder(corpus, boardPattern, used);
    assert multiset(r) == multiset{w} by {
      forall u ensures multiset(r)[u] == multiset{w}[u] {
        if u != w && Fits(Clean(boardPattern), used, u) {
          assert u !in corpus;
        }
      }
    }
    assert |r| == 1 by {
      assert |multiset(r)| == 1;
    }
    assert r[0] in multiset(r);
  }

  /** The shape of every candidate, position by position. */
  lemma CandidateShape(corpus: seq<string>, boardPattern: string, used: set<char>, w: string, i: int)
    requires UpperLetters(used)
    requires w in Candidates(corpus, boardPattern, used)
    requires 0 <= i < |Clean(boardPattern)|
    ensures |w| == |Clean(boardPattern)|
    ensures Clean(boardPattern)[i] != '_' ==> w[i] == Clean(boardPattern)[i]
    ensures Clean(boardPattern)[i] == '_' ==> w[i] !in Excluded(Clean(boardPattern), used)
  {
  }

  /**
   * With nothing excluded a blank compiles to "." and accepts any character:
   * a corpus word of the right length that agrees at the non-blank positions
   * is a candidate.
   */
  lemma BlankAcceptsAnything(corpus: seq<string>, boardPattern: string, used: set<char>, w: string)
    requires UpperLetters(used)
    requires Excluded(Clean(boardPattern), used) == {}
    requires w in corpus && |w| == |Clean(boardPattern)|
    requires forall i :: 0 <= i < |w| && Clean(boardPattern)[i] != '_' ==> w[i] == Clean(boardPattern)[i]
    ensures forall i :: 0 <= i < |Clean(boardPattern)| && Clean(boardPattern)[i] == '_' ==>
      Compile(boardPattern, used)[i] == AnyChar
    ensures w in Candidates(corpus, boardPattern, used)
  {
    var clean := Clean(boardPattern);
    assert Revealed(clean) == {} && used == {};
  }

  /**
   * When the excluded letters cover the alphabet and the board still has a
   * blank, no upper-case word is a candidate: the filter returns an empty list.
   */
  lemma NoCandidatesWhenAlphabetExcluded(corpus: seq<string>, boardPattern: string, used: set<char>)
    requires UpperLetters(used)
    requires forall w :: w in corpus ==> UpperWord(w)
    requires Alphabet() <= Excluded(Clean(boardPattern), used)
    requires '_' in Clean(boardPattern)
    ensures Candidates(corpus, boardPattern, used) == []
  {
    NoFitNoCandidates(corpus, boardPattern, used);
  }

  /** A corpus in which no word fits the board gives an empty candidate list. */
  lemma NoFitNoCandidates(corpus: seq<string>, boardPattern: string, used: set<char>)
    requires UpperLetters(used)
    requires forall w :: w in corpus ==> !Fits(Clean(boardPattern), used, w)
    ensures Candidates(corpus, boardPattern, used) == []
  {
    var r := Candidates(corpus, boardPattern, used);
    forall w ensures multiset(r)[w] == 0 {
      assert w !in r;
    }
    assert multiset(r) == multiset{};
  }
}
