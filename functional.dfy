/** The formula library of readability_calculator/functional.py: counts over the
    plain representation, counts over the parsed representation, and the
    composite indices with their zero-division guards.

    Every counting loop of the source is a method proved against a recursive
    specification function; the specification functions consume a sequence
    from its last element, so that a loop that has handled `s[..i]` extends
    the specification by one step. */
module Functional {
  import opened Wrappers
  import opened Types

  // ---------------------------------------------------------------------------
  // Specification functions
  // ---------------------------------------------------------------------------

  /** The ten lower-case letters the syllable heuristic treats as vowels. */
  const Vowels: string := "ауоыиэяюёе"

  predicate IsVowel(c: char) {
    c in Vowels
  }

  /** Number of vowel occurrences in a word: one syllable per vowel. */
  function SyllablesIn(w: string): (r: nat)
    ensures r <= |w|
  {
    if w == [] then 0
    else SyllablesIn(w[..|w| - 1]) + (if IsVowel(w[|w| - 1]) then 1 else 0)
  }

  /** How many words of one sentence have at least `k` syllables. */
  function WordsAtLeast(s: seq<string>, k: int): (r: nat)
    ensures r <= |s|
  {
    if s == [] then 0
    else WordsAtLeast(s[..|s| - 1], k) + (if SyllablesIn(s[|s| - 1]) >= k then 1 else 0)
  }

  /** The word count: whole sentence lengths when `minSyll` is 0, otherwise only
      the words with at least `minSyll` syllables. */
  function NumWords(ts: TokenizedSentences, minSyll: int): nat {
    if ts == [] then 0
    else
      var last := ts[|ts| - 1];
      NumWords(ts[..|ts| - 1], minSyll) + (if minSyll == 0 then |last| else WordsAtLeast(last, minSyll))
  }

  function NumSents(ts: TokenizedSentences): (r: nat)
    ensures r == |ts|
    ensures r == 0 ==> NumWords(ts, 0) == 0 && NLetters(ts) == 0 && NSyll(ts) == 0
  {
    |ts|
  }

  /** Characters of all words of one sentence (`get_n_ch_s`). */
  function CharsInSentence(s: seq<string>): nat {
    if s == [] then 0 else CharsInSentence(s[..|s| - 1]) + |s[|s| - 1]|
  }

  /** Characters of all words of the text (`get_n_letters`). */
  function NLetters(ts: TokenizedSentences): nat {
    if ts == [] then 0 else NLetters(ts[..|ts| - 1]) + CharsInSentence(ts[|ts| - 1])
  }

  function SentenceSyllables(s: seq<string>): nat {
    if s == [] then 0 else SentenceSyllables(s[..|s| - 1]) + SyllablesIn(s[|s| - 1])
  }

  /** Syllables of all words of the text (`get_n_syll`). */
  function NSyll(ts: TokenizedSentences): nat {
    if ts == [] then 0 else NSyll(ts[..|ts| - 1]) + SentenceSyllables(ts[|ts| - 1])
  }

  /** Python's `sum` over a list of counts. */
  function Sum(xs: seq<nat>): nat {
    if xs == [] then 0 else Sum(xs[..|xs| - 1]) + xs[|xs| - 1]
  }

  /** All words of the text in reading order. */
  function Flatten(ts: TokenizedSentences): seq<string> {
    if ts == [] then [] else Flatten(ts[..|ts| - 1]) + ts[|ts| - 1]
  }

  /** The words of a sequence written one after the other. */
  function Concat(ws: seq<string>): string {
    if ws == [] then [] else Concat(ws[..|ws| - 1]) + ws[|ws| - 1]
  }

  /** How often the ten vowel letters occur in a multiset of characters. */
  function VowelOccurrences(m: multiset<char>): nat {
    m['а'] + m['у'] + m['о'] + m['ы'] + m['и'] + m['э'] + m['я'] + m['ю'] + m['ё'] + m['е']
  }

  // ---------------------------------------------------------------------------
  // Counts over the plain representation (get_num_words ... get_n_psyl)
  // ---------------------------------------------------------------------------

  /** `get_num_words`: one pass over the sentences, adding either the sentence
      length or the number of words that pass the syllable filter. */
  method GetNumWords(ts: TokenizedSentences, minSyll: int) returns (counter: nat)
    ensures counter == NumWords(ts, minSyll)
  {
    counter := 0;
    for i := 0 to |ts|
      invariant counter == NumWords(ts[..i], minSyll)
    {
      assert ts[..i + 1][..i] == ts[..i];
      var sents := ts[i];
      if minSyll == 0 {
        counter := counter + |sents|;
      } else {
        counter := counter + WordsAtLeast(sents, minSyll);
      }
    }
    assert ts[..|ts|] == ts;
  }

  /** `get_asl_w`: words per sentence, 0 when there is no sentence. */
  function AslW(ts: TokenizedSentences): (r: real)
    ensures r >= 0.0
    ensures NumSents(ts) == 0 ==> r == 0.0
    ensures NumSents(ts) > 0 ==> r * NumSents(ts) as real == NumWords(ts, 0) as real
  {
    OrZero(Div(NumWords(ts, 0) as real, NumSents(ts) as real))
  }

  /** `get_n_letters`: one increment per character of every word. */
  method GetNLetters(ts: TokenizedSentences) returns (chars: nat)
    ensures chars == NLetters(ts)
  {
    chars := 0;
    for i := 0 to |ts|
      invariant chars == NLetters(ts[..i])
    {
      assert ts[..i + 1][..i] == ts[..i];
      var sent := ts[i];
      ghost var before := chars;
      for j := 0 to |sent|
        invariant chars == before + CharsInSentence(sent[..j])
      {
        assert sent[..j + 1][..j] == sent[..j];
        var word := sent[j];
        ghost var beforeWord := chars;
        for k := 0 to |word|
          invariant chars == beforeWord + k
        {
          chars := chars + 1;
        }
      }
      assert sent[..|sent|] == sent;
    }
    assert ts[..|ts|] == ts;
  }

  /** `get_n_ch_s`: the characters of one sentence, word by word. */
  method GetNChS(sentence: seq<string>) returns (chars: nat)
    ensures chars == CharsInSentence(sentence)
  {
    chars := 0;
    for i := 0 to |sentence|
      invariant chars == CharsInSentence(sentence[..i])
    {
      assert sentence[..i + 1][..i] == sentence[..i];
      chars := chars + |sentence[i]|;
    }
    assert sentence[..|sentence|] == sentence;
  }

  /** The value `get_slc` returns or raises: with no sentence its loop never
      assigns `slc`, so reading it raises; otherwise characters per sentence. */
  function Slc(ts: TokenizedSentences): (r: Result<real>)
    ensures r.Failure? <==> ts == []
    ensures r.Failure? ==> r.error == UnboundLocalError
    ensures r.Success? ==> r.value >= 0.0 && r.value * NumSents(ts) as real == NLetters(ts) as real
  {
    if ts == [] then Failure(UnboundLocalError)
    else Success(NLetters(ts) as real / NumSents(ts) as real)
  }

  /** `get_slc`: collects the per-sentence character counts and recomputes
      `sum(chars) / num_sents` after each sentence. */
  method GetSlc(ts: TokenizedSentences) returns (r: Result<real>)
    ensures r == Slc(ts)
  {
    var chars: seq<nat> := [];
    var numSents := NumSents(ts);
    var slc: real := 0.0;
    var slcBound := false;
    for i := 0 to |ts|
      invariant |chars| == i
      invariant Sum(chars) == NLetters(ts[..i])
      invariant slcBound <==> i > 0
      invariant slcBound ==> slc == Sum(chars) as real / numSents as real
    {
      assert ts[..i + 1][..i] == ts[..i];
      var n := GetNChS(ts[i]);
      assert (chars + [n])[..i] == chars;
      chars := chars + [n];
      // Inside the loop there is at least one sentence, so this division
      // cannot raise: the source's `except ZeroDivisionError` never fires.
      slc := Sum(chars) as real / numSents as real;
      slcBound := true;
    }
    assert ts[..|ts|] == ts;
    if !slcBound {
      return Failure(UnboundLocalError);
    }
    r := Success(slc);
  }

  /** `get_n_syll_in_word`: one increment per vowel letter. */
  method GetNSyllInWord(word: string) returns (syl: nat)
    ensures syl == SyllablesIn(word)
  {
    syl := 0;
    for i := 0 to |word|
      invariant syl == SyllablesIn(word[..i])
    {
      assert word[..i + 1][..i] == word[..i];
      if word[i] in Vowels {
        syl := syl + 1;
      }
    }
    assert word[..|word|] == word;
  }

  /** `get_n_syll`: the syllables of every word of every sentence. */
  method GetNSyll(ts: TokenizedSentences) returns (counter: nat)
    ensures counter == NSyll(ts)
  {
    counter := 0;
    for i := 0 to |ts|
      invariant counter == NSyll(ts[..i])
    {
      assert ts[..i + 1][..i] == ts[..i];
      var sent := ts[i];
      ghost var before := counter;
      for j := 0 to |sent|
        invariant counter == before + SentenceSyllables(sent[..j])
      {
        assert sent[..j + 1][..j] == sent[..j];
        var n := GetNSyllInWord(sent[j]);
        counter := counter + n;
      }
      assert sent[..|sent|] == sent;
    }
    assert ts[..|ts|] == ts;
  }

  /** `get_n_psyl`: the words with at least three syllables. */
  function NPsyl(ts: TokenizedSentences): (r: nat)
    ensures r <= NumWords(ts, 0)
    ensures forall k :: k <= 3 ==> r <= NumWords(ts, k)
  {
    NumWordsIsFilteredWordList(ts, 0);
    NumWordsIsFilteredWordList(ts, 3);
    assert forall k :: k <= 3 ==> NumWords(ts, 3) <= NumWords(ts, k) by {
      forall k | k <= 3 ensures NumWords(ts, 3) <= NumWords(ts, k) {
        NumWordsAntitone(ts, k, 3);
      }
    }
    NumWords(ts, 3)
  }

  // ---------------------------------------------------------------------------
  // Counts over the parsed representation (get_dep_distance, get_n_clauses)
  // ---------------------------------------------------------------------------

  /** Python's `sub in s` on strings. */
  predicate Contains(s: string, sub: string) {
    sub <= s || (s != [] && Contains(s[1..], sub))
  }

  /** The label test of `get_n_clauses`, all four substring checks. */
  predicate IsClauseLabel(dep: string) {
    Contains(dep, "nsubj") || Contains(dep, "nsubj:pass") || Contains(dep, "csubj") || Contains(dep, "csubj:pass")
  }

  /** Tokens whose label passes the clause test. */
  function NClauses(tokens: seq<ParsedToken>): (r: nat)
    ensures r <= |tokens|
  {
    if tokens == [] then 0
    else NClauses(tokens[..|tokens| - 1]) + (if IsClauseLabel(tokens[|tokens| - 1].dep) then 1 else 0)
  }

  /** `get_n_clauses`: one increment per token with a subject-type label. */
  method GetNClauses(doc: ParsedDoc) returns (cnt: nat)
    ensures cnt == NClauses(doc.tokens)
  {
    var tokens := doc.tokens;
    cnt := 0;
    for i := 0 to |tokens|
      invariant cnt == NClauses(tokens[..i])
    {
      assert tokens[..i + 1][..i] == tokens[..i];
      var dep := tokens[i].dep;
      if Contains(dep, "nsubj") || Contains(dep, "nsubj:pass") || Contains(dep, "csubj") || Contains(dep, "csubj:pass") {
        cnt := cnt + 1;
      }
    }
    assert tokens[..|tokens|] == tokens;
  }

  function DistanceSum(tokens: seq<ParsedToken>): real {
    if tokens == [] then 0.0
    else DistanceSum(tokens[..|tokens| - 1]) + tokens[|tokens| - 1].depDistance
  }

  /** `get_dep_distance`: the distance sum times `1 / (tokens - sentences)`,
      with no guard, so equal counts raise. */
  function DepDistance(doc: ParsedDoc): (r: Result<real>)
    ensures r.Failure? <==> |doc.tokens| == doc.numSents
    ensures r.Failure? ==> r.error == ZeroDivisionError
    ensures r.Success? ==> r.value * (|doc.tokens| - doc.numSents) as real == DistanceSum(doc.tokens)
  {
    var dd := DistanceSum(doc.tokens);
    var inverse :- Div(1.0, (|doc.tokens| - doc.numSents) as real);
    Success(dd * inverse)
  }

  // ---------------------------------------------------------------------------
  // Composite indices (calc_*)
  // ---------------------------------------------------------------------------

  /** `calc_flesh_kincaid`: 0 when the syllables-per-word division raises,
      otherwise the absolute value of the formula. */
  function FleschKincaid(ts: TokenizedSentences): (r: real)
    ensures r >= 0.0
    ensures NumWords(ts, 0) == 0 ==> r == 0.0
    ensures NumWords(ts, 0) > 0 ==>
      r == Abs(206.835 - 1.3 * AslW(ts) - 60.1 * (NSyll(ts) as real / NumWords(ts, 0) as real))
  {
    var nSyll, nWords, asl := NSyll(ts), NumWords(ts, 0), AslW(ts);
    var attempt := (
      var perWord :- Div(nSyll as real, nWords as real);
      Success(206.835 - 1.3 * asl - 60.1 * perWord));
    if attempt.Failure? then 0.0 else Abs(attempt.value)
  }

  /** `calc_coleman_liau_index`: 0 when a division by the word count raises. */
  function ColemanLiau(ts: TokenizedSentences): (r: real)
    ensures NumWords(ts, 0) == 0 ==> r == 0.0
    ensures NumWords(ts, 0) > 0 ==>
      r == 0.055 * (NLetters(ts) as real * 100.0 / NumWords(ts, 0) as real)
           - 0.35 * (NumSents(ts) as real * 100.0 / NumWords(ts, 0) as real) - 20.33
  {
    var nLetters, nWords, nSent := NLetters(ts), NumWords(ts, 0), NumSents(ts);
    // Both terms divide 100.0 by the word count; the first division to raise
    // aborts the whole expression.
    match Div(100.0, nWords as real)
    case Failure(_) => 0.0
    case Success(perWord) => 0.055 * (nLetters as real * perWord) - 0.35 * (nSent as real * perWord) - 20.33
  }

  /** The argument `calc_SMOG_index` passes to `sqrt`, or the division error:
      64.6 polysyllables per sentence. */
  function SmogRadicand(ts: TokenizedSentences): (r: Result<real>)
    ensures r.Failure? <==> NumSents(ts) == 0
    ensures r.Failure? ==> r.error == ZeroDivisionError
    ensures r.Success? ==> r.value >= 0.0 && r.value * NumSents(ts) as real == 64.6 * NPsyl(ts) as real
  {
    var nPsyl, nSent := NPsyl(ts) as real, NumSents(ts) as real;
    match Div(64.6, nSent)
    case Failure(e) => Failure(e)
    case Success(perSentence) =>
      assert perSentence * nPsyl * nSent == perSentence * nSent * nPsyl;
      Success(perSentence * nPsyl)
  }

  /** `calc_SMOG_index`, with `math.sqrt` given as the parameter `sqrt`:
      0 when there is no sentence. */
  function Smog(ts: TokenizedSentences, sqrt: real -> real): (r: real)
    ensures NumSents(ts) == 0 ==> r == 0.0
    ensures NumSents(ts) > 0 ==> r == 1.1 * sqrt(SmogRadicand(ts).value) + 0.05
  {
    match SmogRadicand(ts)
    case Failure(_) => 0.0
    case Success(radicand) => 1.1 * sqrt(radicand) + 0.05
  }

  /** `calc_ARI_index`: 0 when either division raises. */
  function Ari(ts: TokenizedSentences): (r: real)
    ensures NumWords(ts, 0) == 0 || NumSents(ts) == 0 ==> r == 0.0
    ensures NumWords(ts, 0) > 0 && NumSents(ts) > 0 ==>
      r == 6.26 * (NLetters(ts) as real / NumWords(ts, 0) as real)
           + 0.2805 * (NumWords(ts, 0) as real / NumSents(ts) as real) - 31.04
  {
    var nLetters, nWords, nSent := NLetters(ts), NumWords(ts, 0), NumSents(ts);
    match Div(nLetters as real, nWords as real)
    case Failure(_) => 0.0
    case Success(lettersPerWord) =>
      match Div(nWords as real, nSent as real)
      case Failure(_) => 0.0
      case Success(wordsPerSentence) => 6.26 * lettersPerWord + 0.2805 * wordsPerSentence - 31.04
  }

  /** `calc_syntax_compl`: unguarded, so the failures of `get_slc` (checked
      first) and of `get_dep_distance` propagate; otherwise an absolute value. */
  function SyntaxCompl(ts: TokenizedSentences, doc: ParsedDoc): (r: Result<real>)
    ensures r.Failure? <==> ts == [] || |doc.tokens| == doc.numSents
    ensures ts == [] ==> r == Failure(UnboundLocalError)
    ensures ts != [] && |doc.tokens| == doc.numSents ==> r == Failure(ZeroDivisionError)
    ensures r.Success? ==> r.value >= 0.0
  {
    var slc :- Slc(ts);
    var depDistance :- DepDistance(doc);
    var nClauses := NClauses(doc.tokens);
    Success(Abs(-1.61 + 0.014 * slc + 0.146 * depDistance + 0.057 * nClauses as real))
  }

  // ---------------------------------------------------------------------------
  // Lemmas
  // ---------------------------------------------------------------------------

  lemma {:induction false} WordsAtLeastAppend(a: seq<string>, b: seq<string>, k: int)
    ensures WordsAtLeast(a + b, k) == WordsAtLeast(a, k) + WordsAtLeast(b, k)
    decreases |b|
  {
    if b == [] {
      assert a + b == a;
    } else {
      assert (a + b)[..|a + b| - 1] == a + b[..|b| - 1];
      WordsAtLeastAppend(a, b[..|b| - 1], k);
    }
  }

  lemma {:induction false} WordsAtLeastNonPositive(s: seq<string>, k: int)
    requires k <= 0
    ensures WordsAtLeast(s, k) == |s|
    decreases |s|
  {
    if s != [] {
      WordsAtLeastNonPositive(s[..|s| - 1], k);
    }
  }

  lemma {:induction false} WordsAtLeastAntitone(s: seq<string>, k1: int, k2: int)
    requires k1 <= k2
    ensures WordsAtLeast(s, k2) <= WordsAtLeast(s, k1)
    decreases |s|
  {
    if s != [] {
      WordsAtLeastAntitone(s[..|s| - 1], k1, k2);
    }
  }

  /** Whatever the threshold, the word count is the number of words of the whole
      text that pass the syllable filter; with threshold 0 that is every word. */
  lemma {:induction false} NumWordsIsFilteredWordList(ts: TokenizedSentences, k: int)
    ensures NumWords(ts, k) == WordsAtLeast(Flatten(ts), k)
    ensures NumWords(ts, 0) == |Flatten(ts)|
    decreases |ts|
  {
    if ts != [] {
      var init, last := ts[..|ts| - 1], ts[|ts| - 1];
      NumWordsIsFilteredWordList(init, k);
      WordsAtLeastAppend(Flatten(init), last, k);
      if k == 0 {
        WordsAtLeastNonPositive(last, 0);
      }
    }
  }

  /** Raising the syllable threshold never increases the word count. */
  lemma NumWordsAntitone(ts: TokenizedSentences, k1: int, k2: int)
    requires k1 <= k2
    ensures NumWords(ts, k2) <= NumWords(ts, k1)
  {
    NumWordsIsFilteredWordList(ts, k1);
    NumWordsIsFilteredWordList(ts, k2);
    WordsAtLeastAntitone(Flatten(ts), k1, k2);
  }

  /** A threshold of 0 or below lets every word through. */
  lemma NumWordsNonPositiveThreshold(ts: TokenizedSentences, k: int)
    requires k <= 0
    ensures NumWords(ts, k) == NumWords(ts, 0) == |Flatten(ts)|
  {
    NumWordsIsFilteredWordList(ts, k);
    NumWordsIsFilteredWordList(ts, 0);
    WordsAtLeastNonPositive(Flatten(ts), k);
  }

  /** A text with a word has a sentence; so the ARI guard on the sentence count
      only fires when the word count is already 0. */
  lemma {:induction false} WordsRequireSentences(ts: TokenizedSentences, k: int)
    ensures NumWords(ts, k) > 0 ==> NumSents(ts) > 0
  {
  }

  lemma {:induction false} SyllablesAppend(a: string, b: string)
    ensures SyllablesIn(a + b) == SyllablesIn(a) + SyllablesIn(b)
    decreases |b|
  {
    if b == [] {
      assert a + b == a;
    } else {
      assert (a + b)[..|a + b| - 1] == a + b[..|b| - 1];
      SyllablesAppend(a, b[..|b| - 1]);
    }
  }

  /** A word has no syllable exactly when none of its characters is one of the
      ten lower-case vowels. */
  lemma {:induction false} NoSyllablesIffNoVowel(w: string)
    ensures SyllablesIn(w) == 0 <==> forall i :: 0 <= i < |w| ==> !IsVowel(w[i])
    decreases |w|
  {
    if w != [] {
      var init := w[..|w| - 1];
      NoSyllablesIffNoVowel(init);
      assert forall i :: 0 <= i < |init| ==> init[i] == w[i];
    }
  }

  /** The syllable count is the number of occurrences of the ten vowel letters,
      whatever their order. */
  lemma {:induction false} SyllablesAreVowelOccurrences(w: string)
    ensures SyllablesIn(w) == VowelOccurrences(multiset(w))
    decreases |w|
  {
    if w != [] {
      var init, c := w[..|w| - 1], w[|w| - 1];
      SyllablesAreVowelOccurrences(init);
      assert w == init + [c];
      assert multiset(w) == multiset(init) + multiset{c};
      VowelOccurrencesAdd(multiset(init), multiset{c});
      VowelOccurrencesOfOne(c);
    }
  }

  lemma VowelOccurrencesAdd(m1: multiset<char>, m2: multiset<char>)
    ensures VowelOccurrences(m1 + m2) == VowelOccurrences(m1) + VowelOccurrences(m2)
  {
  }

  lemma VowelOccurrencesOfOne(c: char)
    ensures VowelOccurrences(multiset{c}) == if IsVowel(c) then 1 else 0
  {
    assert IsVowel(c) <==> (c == 'а' || c == 'у' || c == 'о' || c == 'ы' || c == 'и' ||
                            c == 'э' || c == 'я' || c == 'ю' || c == 'ё' || c == 'е');
  }

  lemma {:induction false} ConcatAppend(a: seq<string>, b: seq<string>)
    ensures Concat(a + b) == Concat(a) + Concat(b)
    decreases |b|
  {
    if b == [] {
      assert a + b == a;
    } else {
      assert (a + b)[..|a + b| - 1] == a + b[..|b| - 1];
      ConcatAppend(a, b[..|b| - 1]);
    }
  }

  lemma {:induction false} SentenceFacts(s: seq<string>)
    ensures CharsInSentence(s) == |Concat(s)|
    ensures SentenceSyllables(s) == SyllablesIn(Concat(s))
    decreases |s|
  {
    if s != [] {
      SentenceFacts(s[..|s| - 1]);
      SyllablesAppend(Concat(s[..|s| - 1]), s[|s| - 1]);
    }
  }

  /** The letter count and the syllable count are the length and the syllable
      count of the text's words written one after the other. */
  lemma {:induction false} CountsOfAllText(ts: TokenizedSentences)
    ensures NLetters(ts) == |Concat(Flatten(ts))|
    ensures NSyll(ts) == SyllablesIn(Concat(Flatten(ts)))
    decreases |ts|
  {
    if ts != [] {
      var init, last := ts[..|ts| - 1], ts[|ts| - 1];
      CountsOfAllText(init);
      SentenceFacts(last);
      ConcatAppend(Flatten(init), last);
      SyllablesAppend(Concat(Flatten(init)), Concat(last));
    }
  }

  /** There are never more syllables than letters. */
  lemma NSyllAtMostNLetters(ts: TokenizedSentences)
    ensures NSyll(ts) <= NLetters(ts)
  {
    CountsOfAllText(ts);
  }

  lemma {:induction false} ContainsPrefixOfNeedle(s: string, a: string, b: string)
    requires Contains(s, a + b)
    ensures Contains(s, a)
    decreases |s|
  {
    if !(a + b <= s) {
      ContainsPrefixOfNeedle(s[1..], a, b);
    } else {
      assert a == (a + b)[..|a|];
    }
  }

  /** The passive checks add nothing: a label passes exactly when it contains
      "nsubj" or "csubj". */
  lemma ClauseLabelIff(dep: string)
    ensures IsClauseLabel(dep) <==> Contains(dep, "nsubj") || Contains(dep, "csubj")
  {
    if Contains(dep, "nsubj:pass") {
      assert "nsubj:pass" == "nsubj" + ":pass";
      ContainsPrefixOfNeedle(dep, "nsubj", ":pass");
    }
    if Contains(dep, "csubj:pass") {
      assert "csubj:pass" == "csubj" + ":pass";
      ContainsPrefixOfNeedle(dep, "csubj", ":pass");
    }
  }
}
