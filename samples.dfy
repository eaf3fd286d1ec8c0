/** The expectations of test.py for its single-sentence text, "Жизнь
    пренеприятная штука, но сделать ее прекрасной очень нетрудно.", stated on
    the plain representation that `encode` yields for it: the comma and the
    full stop are dropped and the first word is lower-cased. */
module Samples {
  import opened Wrappers
  import opened Types
  import opened Functional
  import B = Base

  const SimpleTokens: TokenizedSentences :=
    [["жизнь", "пренеприятная", "штука", "но", "сделать", "ее", "прекрасной", "очень", "нетрудно"]]

  /** The text of the test. */
  const SimpleText: string := "Жизнь пренеприятная штука, но сделать ее прекрасной очень нетрудно."

  /** The word tokens of the text: the comma and the full stop are tokens of
      their own. */
  const RawTokens: seq<string> :=
    ["Жизнь", "пренеприятная", "штука", ",", "но", "сделать", "ее", "прекрасной", "очень", "нетрудно", "."]

  /** What the foreign code has to say about the characters of the text: the
      punctuation is no word character, the first letter of every word is one,
      and lower-casing changes only the capital of the first word. */
  predicate SimpleCharacters(isWordChar: char -> bool, lower: string -> string) {
    && !isWordChar(',') && !isWordChar('.')
    && isWordChar('Ж') && isWordChar('п') && isWordChar('ш') && isWordChar('н')
    && isWordChar('с') && isWordChar('е') && isWordChar('о')
    && lower("Жизнь") == "жизнь"
    && lower("пренеприятная") == "пренеприятная"
    && lower("штука") == "штука"
    && lower("но") == "но"
    && lower("сделать") == "сделать"
    && lower("ее") == "ее"
    && lower("прекрасной") == "прекрасной"
    && lower("очень") == "очень"
    && lower("нетрудно") == "нетрудно"
  }

  /** A single token that starts with a non-word character is dropped. */
  lemma CleanDropsOne(token: string, isWordChar: char -> bool, lower: string -> string)
    requires |token| > 0 && !isWordChar(token[0])
    ensures B.CleanSentence([token], isWordChar, lower) == []
  {
    B.MatchIffLeadingNonWord(token, isWordChar);
    assert [token][1..] == [];
  }

  /** Eleven tokens whose fourth and last start with a non-word character and
      all others with a word character: cleaning keeps the other nine,
      lower-cased. */
  lemma CleanElevenTokens(t: seq<string>, isWordChar: char -> bool, lower: string -> string)
    requires |t| == 11
    requires forall k :: 0 <= k < 11 ==> |t[k]| > 0
    requires forall k :: 0 <= k < 11 ==> (isWordChar(t[k][0]) <==> k != 3 && k != 10)
    ensures B.CleanSentence(t, isWordChar, lower) ==
      [lower(t[0]), lower(t[1]), lower(t[2]), lower(t[4]), lower(t[5]),
       lower(t[6]), lower(t[7]), lower(t[8]), lower(t[9])]
  {
    var first, comma, rest, stop := t[..3], [t[3]], t[4..10], [t[10]];
    assert t == first + comma + rest + stop;
    B.CleanSentenceKeepsWords(first, isWordChar, lower);
    B.CleanSentenceKeepsWords(rest, isWordChar, lower);
    CleanDropsOne(t[3], isWordChar, lower);
    CleanDropsOne(t[10], isWordChar, lower);
    B.CleanSentenceAppend(first + comma + rest, stop, isWordChar, lower);
    B.CleanSentenceAppend(first + comma, rest, isWordChar, lower);
    B.CleanSentenceAppend(first, comma, isWordChar, lower);
  }

  /** `encode` of the text yields `SimpleTokens` when NLTK keeps the text as one
      sentence and splits it into `RawTokens`. */
  lemma EncodeSimpleText(tokenizer: B.Tokenizer)
    requires tokenizer.externals.sentTokenize(SimpleText) == [SimpleText]
    requires tokenizer.externals.wordTokenize(SimpleText) == RawTokens
    requires SimpleCharacters(tokenizer.externals.isWordChar, tokenizer.externals.lower)
    ensures tokenizer.Encode(SimpleText) == SimpleTokens
  {
    CleanSimpleTokens(tokenizer.externals.isWordChar, tokenizer.externals.lower);
  }

  /** The cleaning step of `encode` on the tokens of the text. */
  lemma CleanSimpleTokens(isWordChar: char -> bool, lower: string -> string)
    requires SimpleCharacters(isWordChar, lower)
    ensures B.CleanSentence(RawTokens, isWordChar, lower) == SimpleTokens[0]
  {
    var t := RawTokens;
    assert t[0][0] == 'Ж' && t[1][0] == 'п' && t[2][0] == 'ш' && t[3][0] == ',';
    assert t[4][0] == 'н' && t[5][0] == 'с' && t[6][0] == 'е' && t[7][0] == 'п';
    assert t[8][0] == 'о' && t[9][0] == 'н' && t[10][0] == '.';
    CleanElevenTokens(t, isWordChar, lower);
  }

  /** Word 1 of the text, vowel by vowel. */
  lemma SyllablesOfWord1()
    ensures SyllablesIn("жизнь") == 1
  {
    assert "ж"[..0] == "";
    assert SyllablesIn("ж") == 0;
    assert "жи"[..1] == "ж";
    assert SyllablesIn("жи") == 1;
    assert "жиз"[..2] == "жи";
    assert SyllablesIn("жиз") == 1;
    assert "жизн"[..3] == "жиз";
    assert SyllablesIn("жизн") == 1;
    assert "жизнь"[..4] == "жизн";
    assert SyllablesIn("жизнь") == 1;
  }

  /** Word 2. */
  lemma SyllablesOfWord2()
    ensures SyllablesIn("пренеприятная") == 6
  {
    assert "п"[..0] == "";
    assert SyllablesIn("п") == 0;
    assert "пр"[..1] == "п";
    assert SyllablesIn("пр") == 0;
    assert "пре"[..2] == "пр";
    assert SyllablesIn("пре") == 1;
    assert "прен"[..3] == "пре";
    assert SyllablesIn("прен") == 1;
    assert "прене"[..4] == "прен";
    assert SyllablesIn("прене") == 2;
    assert "пренеп"[..5] == "прене";
    assert SyllablesIn("пренеп") == 2;
    assert "пренепр"[..6] == "пренеп";
    assert SyllablesIn("пренепр") == 2;
    assert "пренепри"[..7] == "пренепр";
    assert SyllablesIn("пренепри") == 3;
    assert "пренеприя"[..8] == "пренепри";
    assert SyllablesIn("пренеприя") == 4;
    assert "пренеприят"[..9] == "пренеприя";
    assert SyllablesIn("пренеприят") == 4;
    assert "пренеприятн"[..10] == "пренеприят";
    assert SyllablesIn("пренеприятн") == 4;
    assert "пренеприятна"[..11] == "пренеприятн";
    assert SyllablesIn("пренеприятна") == 5;
    assert "пренеприятная"[..12] == "пренеприятна";
    assert SyllablesIn("пренеприятная") == 6;
  }

  /** Word 3. */
  lemma SyllablesOfWord3()
    ensures SyllablesIn("штука") == 2
  {
    assert "ш"[..0] == "";
    assert SyllablesIn("ш") == 0;
    assert "шт"[..1] == "ш";
    assert SyllablesIn("шт") == 0;
    assert "шту"[..2] == "шт";
    assert SyllablesIn("шту") == 1;
    assert "штук"[..3] == "шту";
    assert SyllablesIn("штук") == 1;
    assert "штука"[..4] == "штук";
    assert SyllablesIn("штука") == 2;
  }

  /** Word 4. */
  lemma SyllablesOfWord4()
    ensures SyllablesIn("но") == 1
  {
    assert "н"[..0] == "";
    assert SyllablesIn("н") == 0;
    assert "но"[..1] == "н";
    assert SyllablesIn("но") == 1;
  }

  /** Word 5. */
  lemma SyllablesOfWord5()
    ensures SyllablesIn("сделать") == 2
  {
    assert "с"[..0] == "";
    assert SyllablesIn("с") == 0;
    assert "сд"[..1] == "с";
    assert SyllablesIn("сд") == 0;
    assert "сде"[..2] == "сд";
    assert SyllablesIn("сде") == 1;
    assert "сдел"[..3] == "сде";
    assert SyllablesIn("сдел") == 1;
    assert "сдела"[..4] == "сдел";
    assert SyllablesIn("сдела") == 2;
    assert "сделат"[..5] == "сдела";
    assert SyllablesIn("сделат") == 2;
    assert "сделать"[..6] == "сделат";
    assert SyllablesIn("сделать") == 2;
  }

  /** Word 6. */
  lemma SyllablesOfWord6()
    ensures SyllablesIn("ее") == 2
  {
    assert "е"[..0] == "";
    assert SyllablesIn("е") == 1;
    assert "ее"[..1] == "е";
    assert SyllablesIn("ее") == 2;
  }

  /** Word 7. */
  lemma SyllablesOfWord7()
    ensures SyllablesIn("прекрасной") == 3
  {
    assert "п"[..0] == "";
    assert SyllablesIn("п") == 0;
    assert "пр"[..1] == "п";
    assert SyllablesIn("пр") == 0;
    assert "пре"[..2] == "пр";
    assert SyllablesIn("пре") == 1;
    assert "прек"[..3] == "пре";
    assert SyllablesIn("прек") == 1;
    assert "прекр"[..4] == "прек";
    assert SyllablesIn("прекр") == 1;
    assert "прекра"[..5] == "прекр";
    assert SyllablesIn("прекра") == 2;
    assert "прекрас"[..6] == "прекра";
    assert SyllablesIn("прекрас") == 2;
    assert "прекрасн"[..7] == "прекрас";
    assert SyllablesIn("прекрасн") == 2;
    assert "прекрасно"[..8] == "прекрасн";
    assert SyllablesIn("прекрасно") == 3;
    assert "прекрасной"[..9] == "прекрасно";
    assert SyllablesIn("прекрасной") == 3;
  }

  /** Word 8. */
  lemma SyllablesOfWord8()
    ensures SyllablesIn("очень") == 2
  {
    assert "о"[..0] == "";
    assert SyllablesIn("о") == 1;
    assert "оч"[..1] == "о";
    assert SyllablesIn("оч") == 1;
    assert "оче"[..2] == "оч";
    assert SyllablesIn("оче") == 2;
    assert "очен"[..3] == "оче";
    assert SyllablesIn("очен") == 2;
    assert "очень"[..4] == "очен";
    assert SyllablesIn("очень") == 2;
  }

  /** Word 9. */
  lemma SyllablesOfWord9()
    ensures SyllablesIn("нетрудно") == 3
  {
    assert "н"[..0] == "";
    assert SyllablesIn("н") == 0;
    assert "не"[..1] == "н";
    assert SyllablesIn("не") == 1;
    assert "нет"[..2] == "не";
    assert SyllablesIn("нет") == 1;
    assert "нетр"[..3] == "нет";
    assert SyllablesIn("нетр") == 1;
    assert "нетру"[..4] == "нетр";
    assert SyllablesIn("нетру") == 2;
    assert "нетруд"[..5] == "нетру";
    assert SyllablesIn("нетруд") == 2;
    assert "нетрудн"[..6] == "нетруд";
    assert SyllablesIn("нетрудн") == 2;
    assert "нетрудно"[..7] == "нетрудн";
    assert SyllablesIn("нетрудно") == 3;
  }

  lemma SimpleTextLetters()
    ensures NLetters(SimpleTokens) == 57
  {
    var s := SimpleTokens[0];
    assert SimpleTokens[..0] == [];
    assert s[..0] == [];
    assert s[..1][..0] == s[..0] && s[0] == "жизнь";
    assert CharsInSentence(s[..1]) == 5;
    assert s[..2][..1] == s[..1] && s[1] == "пренеприятная";
    assert CharsInSentence(s[..2]) == 18;
    assert s[..3][..2] == s[..2] && s[2] == "штука";
    assert CharsInSentence(s[..3]) == 23;
    assert s[..4][..3] == s[..3] && s[3] == "но";
    assert CharsInSentence(s[..4]) == 25;
    assert s[..5][..4] == s[..4] && s[4] == "сделать";
    assert CharsInSentence(s[..5]) == 32;
    assert s[..6][..5] == s[..5] && s[5] == "ее";
    assert CharsInSentence(s[..6]) == 34;
    assert s[..7][..6] == s[..6] && s[6] == "прекрасной";
    assert CharsInSentence(s[..7]) == 44;
    assert s[..8][..7] == s[..7] && s[7] == "очень";
    assert CharsInSentence(s[..8]) == 49;
    assert s[..9][..8] == s[..8] && s[8] == "нетрудно";
    assert CharsInSentence(s[..9]) == 57;
    assert s[..9] == s;
  }

  /** The syllables of the nine words, in order. */
  const SimpleSyllables: seq<nat> := [1, 6, 2, 1, 2, 2, 3, 2, 3]

  lemma SimpleWordSyllables(i: nat)
    requires i < 9
    ensures SyllablesIn(SimpleTokens[0][i]) == SimpleSyllables[i]
  {
    if i == 0 { SyllablesOfWord1(); }
    else if i == 1 { SyllablesOfWord2(); }
    else if i == 2 { SyllablesOfWord3(); }
    else if i == 3 { SyllablesOfWord4(); }
    else if i == 4 { SyllablesOfWord5(); }
    else if i == 5 { SyllablesOfWord6(); }
    else if i == 6 { SyllablesOfWord7(); }
    else if i == 7 { SyllablesOfWord8(); }
    else { SyllablesOfWord9(); }
  }

  lemma SimpleTextSyllables()
    ensures NSyll(SimpleTokens) == 22
  {
    forall i | 0 <= i < 9 ensures SyllablesIn(SimpleTokens[0][i]) == SimpleSyllables[i] {
      SimpleWordSyllables(i);
    }
    SentenceSyllablesIsSum(SimpleTokens[0], SimpleSyllables);
    assert [1][..0] == [];
    assert Sum([1]) == 1;
    assert [1, 6][..1] == [1];
    assert Sum([1, 6]) == 7;
    assert [1, 6, 2][..2] == [1, 6];
    assert Sum([1, 6, 2]) == 9;
    assert [1, 6, 2, 1][..3] == [1, 6, 2];
    assert Sum([1, 6, 2, 1]) == 10;
    assert [1, 6, 2, 1, 2][..4] == [1, 6, 2, 1];
    assert Sum([1, 6, 2, 1, 2]) == 12;
    assert [1, 6, 2, 1, 2, 2][..5] == [1, 6, 2, 1, 2];
    assert Sum([1, 6, 2, 1, 2, 2]) == 14;
    assert [1, 6, 2, 1, 2, 2, 3][..6] == [1, 6, 2, 1, 2, 2];
    assert Sum([1, 6, 2, 1, 2, 2, 3]) == 17;
    assert [1, 6, 2, 1, 2, 2, 3, 2][..7] == [1, 6, 2, 1, 2, 2, 3];
    assert Sum([1, 6, 2, 1, 2, 2, 3, 2]) == 19;
    assert [1, 6, 2, 1, 2, 2, 3, 2, 3][..8] == [1, 6, 2, 1, 2, 2, 3, 2];
    assert Sum([1, 6, 2, 1, 2, 2, 3, 2, 3]) == 22;
    assert SimpleTokens[..0] == [];
  }

  lemma SimpleTextPolysyllables()
    ensures NumWords(SimpleTokens, 3) == 3
  {
    forall i | 0 <= i < 9 ensures SyllablesIn(SimpleTokens[0][i]) == SimpleSyllables[i] {
      SimpleWordSyllables(i);
    }
    WordsAtLeastIsCount(SimpleTokens[0], SimpleSyllables, 3);
    assert [1][..0] == [];
    assert CountAtLeast([1], 3) == 0;
    assert [1, 6][..1] == [1];
    assert CountAtLeast([1, 6], 3) == 1;
    assert [1, 6, 2][..2] == [1, 6];
    assert CountAtLeast([1, 6, 2], 3) == 1;
    assert [1, 6, 2, 1][..3] == [1, 6, 2];
    assert CountAtLeast([1, 6, 2, 1], 3) == 1;
    assert [1, 6, 2, 1, 2][..4] == [1, 6, 2, 1];
    assert CountAtLeast([1, 6, 2, 1, 2], 3) == 1;
    assert [1, 6, 2, 1, 2, 2][..5] == [1, 6, 2, 1, 2];
    assert CountAtLeast([1, 6, 2, 1, 2, 2], 3) == 1;
    assert [1, 6, 2, 1, 2, 2, 3][..6] == [1, 6, 2, 1, 2, 2];
    assert CountAtLeast([1, 6, 2, 1, 2, 2, 3], 3) == 2;
    assert [1, 6, 2, 1, 2, 2, 3, 2][..7] == [1, 6, 2, 1, 2, 2, 3];
    assert CountAtLeast([1, 6, 2, 1, 2, 2, 3, 2], 3) == 2;
    assert [1, 6, 2, 1, 2, 2, 3, 2, 3][..8] == [1, 6, 2, 1, 2, 2, 3, 2];
    assert CountAtLeast([1, 6, 2, 1, 2, 2, 3, 2, 3], 3) == 3;
    assert SimpleTokens[..0] == [];
  }

  /** How many of the counts reach `k`. */
  function CountAtLeast(n: seq<nat>, k: int): nat {
    if n == [] then 0 else CountAtLeast(n[..|n| - 1], k) + (if n[|n| - 1] >= k then 1 else 0)
  }

  /** A sentence's syllables are the sum of its words' counts. */
  lemma {:induction false} SentenceSyllablesIsSum(s: seq<string>, n: seq<nat>)
    requires |n| == |s|
    requires forall i :: 0 <= i < |s| ==> SyllablesIn(s[i]) == n[i]
    ensures SentenceSyllables(s) == Sum(n)
    decreases |s|
  {
    if s != [] {
      SentenceSyllablesIsSum(s[..|s| - 1], n[..|n| - 1]);
    }
  }

  /** The words that reach the threshold are as many as the counts that do. */
  lemma {:induction false} WordsAtLeastIsCount(s: seq<string>, n: seq<nat>, k: int)
    requires |n| == |s|
    requires forall i :: 0 <= i < |s| ==> SyllablesIn(s[i]) == n[i]
    ensures WordsAtLeast(s, k) == CountAtLeast(n, k)
    decreases |s|
  {
    if s != [] {
      WordsAtLeastIsCount(s[..|s| - 1], n[..|n| - 1], k);
    }
  }

  /** Word, sentence, letter, syllable and polysyllable counts of the text. */
  lemma SimpleTextCounts()
    ensures NumWords(SimpleTokens, 0) == 9
    ensures NumSents(SimpleTokens) == 1
    ensures AslW(SimpleTokens) == 9.0
    ensures NLetters(SimpleTokens) == 57
    ensures Slc(SimpleTokens) == Success(57.0)
    ensures NSyll(SimpleTokens) == 22
    ensures NPsyl(SimpleTokens) == 3
  {
    SimpleTextLetters();
    SimpleTextSyllables();
    SimpleTextPolysyllables();
    assert SimpleTokens[..0] == [];
  }

  /** The composite indices agree with the test's floating-point values to
      within 0.0001. */
  lemma SimpleTextIndices()
    ensures 48.2238 < FleschKincaid(SimpleTokens) < 48.2239
    ensures 10.6144 < ColemanLiau(SimpleTokens) < 10.6145
    ensures 11.1311 < Ari(SimpleTokens) < 11.1312
    ensures SmogRadicand(SimpleTokens) == Success(193.8)
  {
    SimpleTextCounts();
  }

  /** SMOG of the text lies within 0.0001 of the test's value for any `sqrt`
      that is correct to five decimals at the radicand 193.8. */
  lemma SimpleTextSmog(sqrt: real -> real)
    requires 13.92120 < sqrt(193.8) < 13.92121
    ensures 15.3633 < Smog(SimpleTokens, sqrt) < 15.3634
  {
    SimpleTextCounts();
    SimpleTextIndices();
  }

  /** A word of exactly three syllables already counts as a polysyllable. */
  lemma ThreeSyllablesArePolysyllabic()
    ensures NPsyl([["нетрудно"]]) == 1
    ensures NPsyl([["очень"]]) == 0
  {
    SyllablesOfWord9();
    SyllablesOfWord8();
  }

  /** Upper-case vowels are not in the vowel string and count for nothing. */
  lemma UpperCaseVowelsCountNothing()
    ensures SyllablesIn("АУОЫИЭЯЮЁЕ") == 0
    ensures SyllablesIn("ЖИЗНЬ") == 0
  {
    assert "А"[..0] == "";
    assert SyllablesIn("А") == 0;
    assert "АУ"[..1] == "А";
    assert SyllablesIn("АУ") == 0;
    assert "АУО"[..2] == "АУ";
    assert SyllablesIn("АУО") == 0;
    assert "АУОЫ"[..3] == "АУО";
    assert SyllablesIn("АУОЫ") == 0;
    assert "АУОЫИ"[..4] == "АУОЫ";
    assert SyllablesIn("АУОЫИ") == 0;
    assert "АУОЫИЭ"[..5] == "АУОЫИ";
    assert SyllablesIn("АУОЫИЭ") == 0;
    assert "АУОЫИЭЯ"[..6] == "АУОЫИЭ";
    assert SyllablesIn("АУОЫИЭЯ") == 0;
    assert "АУОЫИЭЯЮ"[..7] == "АУОЫИЭЯ";
    assert SyllablesIn("АУОЫИЭЯЮ") == 0;
    assert "АУОЫИЭЯЮЁ"[..8] == "АУОЫИЭЯЮ";
    assert SyllablesIn("АУОЫИЭЯЮЁ") == 0;
    assert "АУОЫИЭЯЮЁЕ"[..9] == "АУОЫИЭЯЮЁ";
    assert SyllablesIn("АУОЫИЭЯЮЁЕ") == 0;
    assert "Ж"[..0] == "";
    assert SyllablesIn("Ж") == 0;
    assert "ЖИ"[..1] == "Ж";
    assert SyllablesIn("ЖИ") == 0;
    assert "ЖИЗ"[..2] == "ЖИ";
    assert SyllablesIn("ЖИЗ") == 0;
    assert "ЖИЗН"[..3] == "ЖИЗ";
    assert SyllablesIn("ЖИЗН") == 0;
    assert "ЖИЗНЬ"[..4] == "ЖИЗН";
    assert SyllablesIn("ЖИЗНЬ") == 0;
  }

  /** "nsubj:pass" passes the clause test once; "obj" does not pass it. */
  lemma ClauseLabels()
    ensures IsClauseLabel("nsubj:pass") && IsClauseLabel("csubj")
    ensures !IsClauseLabel("obj")
    ensures NClauses([ParsedToken("nsubj:pass", 1.0), ParsedToken("obj", 2.0)]) == 1
  {
  }
}
