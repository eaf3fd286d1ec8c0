# Readability calculator for Russian text: a Dafny model

The `readability_calculator` package computes readability measures of a Russian
text. It splits the text into sentences and words, or parses it into
dependency-labelled tokens. From the words it counts words, sentences, letters,
syllables and polysyllables. It also counts clauses and the mean dependency
distance. The counts are combined into the Flesch-Kincaid, Coleman-Liau, SMOG
and ARI indices and a syntactic complexity score. One metric class per measure
picks the representation it needs from a cached `Tokenizer`. The `Calc` and
`ComplexCalc` calculators return a dictionary of the metrics a caller selected.

This project models the three core modules:

- `functional.dfy` covers `readability_calculator/functional.py`. Each counting
  loop is a `method` proved equal to a recursive specification function. The
  indices are functions over those counts. Every division that Python may
  raise on is modelled as a `Result`.
- `base.dfy` covers `readability_calculator/base.py`:
  - the `\W+` token filter of `Tokenizer.encode`;
  - the instance cache of `_TokenizerSingleton`, as a class with a mutable
    `map` field;
  - the metric classes, as a `Metric` datatype;
  - `compute` and its dispatch on `_call_type`.
- `calculator.dfy` covers `readability_calculator/calculator.py`: the two
  catalogs, the key filter of `__init__`, and the loop of `__call__` over a
  dictionary. A dictionary is modelled as an insertion-ordered list of items
  with distinct keys.

There are three support files:

- `wrappers.dfy` holds `Option`, `Result` (Python's exceptions
  `ZeroDivisionError` and `UnboundLocalError`) and the division that raises.
- `types.dfy` holds the token types and the field names of `CalcOutput`.
- `samples.dfy` works on the one-sentence text of `test.py`. It proves that
  `encode` yields the nine-word list, given what NLTK returns for the text and
  which characters are word characters. From that word list it proves the
  counts the test expects, Flesch-Kincaid, Coleman-Liau and ARI within 0.0001,
  and the SMOG radicand 193.8. The SMOG value itself depends on the `sqrt`
  parameter: it is within 0.0001 of the test's value for any `sqrt` that is
  correct to five decimals at 193.8. The parse-based values of the test
  (dependency distance 3.7, 2 clauses, syntax 0.1578) are not covered, because
  the parse comes from the foreign pipeline.

Python `float` arithmetic is modelled with exact `real` numbers, so the
sample indices are stated as bounds around the test's floating-point values.

## Model

| member | source | states |
|---|---|---|
| Functional.GetNumWords | readability_calculator/functional.py:12-22 | the loop's counter is the sum of sentence lengths when `min_syll` is 0, otherwise the number of words with at least `min_syll` syllables |
| Functional.NumWordsIsFilteredWordList | readability_calculator/functional.py:12-22 | the count with any threshold is the number of words of the whole flattened text that pass the syllable filter; with threshold 0 it is the number of all words |
| Functional.NumWordsAntitone | readability_calculator/functional.py:18-21 | raising the syllable threshold never increases the word count |
| Functional.NumWordsNonPositiveThreshold | readability_calculator/functional.py:18-21 | a negative threshold counts every word, just as the special case 0 does |
| Functional.WordsAtLeastAppend | readability_calculator/functional.py:21 | the filtered count of a sentence is additive over concatenation |
| Functional.WordsAtLeastAntitone | readability_calculator/functional.py:21 | within one sentence, a higher threshold passes no more words |
| Functional.WordsAtLeastNonPositive | readability_calculator/functional.py:21 | a threshold of 0 or below passes every word of a sentence |
| Functional.NumSents | readability_calculator/functional.py:24-28 | the sentence count is the length of the sentence list; with no sentence there is no word, letter or syllable |
| Functional.WordsRequireSentences | readability_calculator/functional.py:12-28 | a text with a counted word has at least one sentence |
| Functional.AslW | readability_calculator/functional.py:30-40 | the value is 0 when there is no sentence, otherwise the quotient words / sentences, and it is never negative |
| Functional.GetNLetters | readability_calculator/functional.py:42-51 | the triple loop counts every character of every word of every sentence |
| Functional.GetNChS | readability_calculator/functional.py:53-57 | the loop sums the lengths of the words of one sentence |
| Functional.Slc | readability_calculator/functional.py:59-71 | raises `UnboundLocalError` exactly when there is no sentence; otherwise letters / sentences, never negative, and the `except ZeroDivisionError` branch is never taken |
| Functional.GetSlc | readability_calculator/functional.py:59-71 | the loop that appends per-sentence counts and recomputes `sum(chars)/num_sents` returns `Slc` |
| Functional.GetNSyllInWord | readability_calculator/functional.py:73-82 | the loop counts the characters of the word that are among the ten lower-case vowels |
| Functional.SyllablesAreVowelOccurrences | readability_calculator/functional.py:73-82 | the syllable count of a word is the number of vowel occurrences in its multiset of letters, so it does not depend on their order |
| Functional.NoSyllablesIffNoVowel | readability_calculator/functional.py:77-82 | a word has no syllable if and only if none of its characters is a lower-case vowel |
| Functional.SyllablesAppend | readability_calculator/functional.py:79-81 | the syllable count is additive over concatenation of strings |
| Functional.GetNSyll | readability_calculator/functional.py:84-92 | the nested loop adds the syllables of every word of every sentence |
| Functional.CountsOfAllText | readability_calculator/functional.py:42-92 | the letter and syllable counts are the length and the syllable count of all words written one after another |
| Functional.SentenceFacts | readability_calculator/functional.py:53-57 | one sentence's character count is the length of its words joined; its syllables are the syllables of that string |
| Functional.ConcatAppend | readability_calculator/functional.py:47-50 | joining words distributes over concatenation of word lists |
| Functional.NSyllAtMostNLetters | readability_calculator/functional.py:42-92 | a text never has more syllables than letters |
| Functional.NPsyl | readability_calculator/functional.py:94-98 | the polysyllable count is at most the word count, and at most the count for any threshold up to 3 |
| Functional.NClauses | readability_calculator/functional.py:107-115 | no more clauses than tokens |
| Functional.GetNClauses | readability_calculator/functional.py:107-115 | the loop counts the tokens whose label passes the four substring tests |
| Functional.ClauseLabelIff | readability_calculator/functional.py:113 | a label passes exactly when it contains "nsubj" or "csubj"; the two ":pass" tests never decide anything |
| Functional.ContainsPrefixOfNeedle | readability_calculator/functional.py:113 | a string that contains `a + b` contains `a` |
| Functional.DepDistance | readability_calculator/functional.py:100-105 | raises `ZeroDivisionError` exactly when there are as many tokens as sentences; otherwise the value times (tokens - sentences) is the distance sum |
| Functional.FleschKincaid | readability_calculator/functional.py:117-126 | 0 when there is no word, otherwise the absolute value of 206.835 - 1.3 * ASL - 60.1 * syllables/words; never negative |
| Functional.ColemanLiau | readability_calculator/functional.py:128-137 | 0 when there is no word, otherwise 0.055 * letters per 100 words - 0.35 * sentences per 100 words - 20.33 |
| Functional.SmogRadicand | readability_calculator/functional.py:139-148 | the argument of `sqrt` is 64.6 polysyllables per sentence: it raises `ZeroDivisionError` exactly when there is no sentence, and otherwise it times the sentence count is 64.6 times the polysyllable count and is never negative |
| Functional.Smog | readability_calculator/functional.py:139-148 | 0 when there is no sentence, otherwise 1.1 * sqrt(radicand) + 0.05 with the radicand of `SmogRadicand` |
| Functional.Ari | readability_calculator/functional.py:150-159 | 0 when there is no word or no sentence, otherwise 6.26 * letters/words + 0.2805 * words/sentences - 31.04 |
| Functional.SyntaxCompl | readability_calculator/functional.py:161-167 | raises exactly when `get_slc` or `get_dep_distance` raises, with the exception of whichever runs first; otherwise never negative |
| Wrappers.Div | readability_calculator/functional.py:37 | Python's `/` raises `ZeroDivisionError` exactly when the divisor is 0; otherwise the quotient times the divisor is the dividend |
| Wrappers.Abs | readability_calculator/functional.py:126 | `abs` is never negative and is the argument or its negation |
| Base.NonWordRun | readability_calculator/base.py:36 | the length of the leading run of non-word characters that `\W+` consumes: all characters before it are non-word, the one after it is a word character |
| Base.MatchIffLeadingNonWord | readability_calculator/base.py:36 | `re.match(r'\W+', token)` succeeds exactly when the token is non-empty and starts with a non-word character |
| Base.MatchIgnoresLaterCharacters | readability_calculator/base.py:36 | only the first character decides the match, since the pattern is anchored only at the start |
| Base.CleanSentence | readability_calculator/base.py:36 | the cleaned sentence is no longer than the token list |
| Base.CleanSentenceAppend | readability_calculator/base.py:36 | cleaning goes token by token and keeps the order |
| Base.CleanSentenceMembers | readability_calculator/base.py:36 | a cleaned word is the lower-cased form of an input token the pattern does not match, and every such token appears lower-cased |
| Base.CleanSentenceKeepsWords | readability_calculator/base.py:36 | when every token starts with a word character, cleaning only lower-cases |
| Base.Tokenizer.constructor | readability_calculator/base.py:23-27 | the tokenizer holds the loaded tokenizers and pipeline it is given |
| Base.Tokenizer.Encode | readability_calculator/base.py:33-37 | one word list per sentence of `sent_tokenize`; the word list of sentence i is the cleaned `word_tokenize` of that sentence, and is no longer than it |
| Base.Tokenizer.EncodeSpacy | readability_calculator/base.py:39-40 | the parse is the pipeline's output for the text, passed on unchanged |
| Base.TokenizerSingleton.constructor | readability_calculator/base.py:16 | the instance cache starts empty |
| Base.TokenizerSingleton.Call | readability_calculator/base.py:17-21 | the first call for a class creates a fresh instance from the arguments and stores it; later calls return the stored instance and leave the cache unchanged |
| Base.ConvertToTokens | readability_calculator/base.py:42-50 | the representation chosen by `_call_type` is the one the metric's function takes |
| Base.ComputeMetric | readability_calculator/base.py:42-61 | `compute` loads the tokenizer into the cache on the first call only and returns the metric computed with the cached tokenizer |
| Base.CallTypeOf | readability_calculator/base.py:63-116 | the `_call_type` of each class: the parse for `DependencyDist` and `NClause`, none for `Syntax` (which reads both), the word lists for every other class |
| Base.CallFunction | readability_calculator/base.py:60-61 | `__call__` with each class's `_call_function` (base.py:63-125): it raises exactly for `SLC` on no sentence, `DependencyDist` when tokens and sentences are as many, and `Syntax` in either case; the six counting classes return an integer, the others a float |
| Base.Compute | readability_calculator/base.py:56-58 | `compute` (with `Syntax.compute`, base.py:118-122) applies the class's function to `encode` for the tokenized call type, to `encode_spacy` for the parsed one, and to both for `Syntax` |
| Base.FailingMetrics | readability_calculator/base.py:63-125 | `compute` raises for exactly three classes: `SLC` on a text with no sentence, `DependencyDist` when tokens and sentences are as many, and `Syntax` in either case |
| Base.NonNegativeMetrics | readability_calculator/base.py:63-125 | every integer count is non-negative, as are ASL, SLC, Flesch-Kincaid and the syntactic complexity |
| Calculator.Keys | readability_calculator/calculator.py:29-33 | the keys of a dictionary, one per item, in order |
| Calculator.Select | readability_calculator/calculator.py:29 | an item is kept if and only if it is in the request and its key is in the catalog; the value is the caller's |
| Calculator.SelectKeepsOrder | readability_calculator/calculator.py:29 | selection distributes over concatenation, so the kept items keep the caller's order |
| Calculator.SelectKnownKeys | readability_calculator/calculator.py:29 | a request whose keys are all in the catalog is kept whole |
| Calculator.SelectedKeysInCatalog | readability_calculator/calculator.py:29 | every selected key is a catalog key |
| Calculator.KeysOfItems | readability_calculator/calculator.py:29 | every item's key is among the dictionary's keys |
| Calculator.AvailableKeys | readability_calculator/calculator.py:5-15 | the keys of `AVAILABLE_METRICS`, in order |
| Calculator.ComplexKeys | readability_calculator/calculator.py:17-23 | the keys of `COMPLEX_METRICS`, in order |
| Calculator.CatalogsDisjoint | readability_calculator/calculator.py:5-23 | no key is in both catalogs |
| Calculator.DefaultSelection | readability_calculator/calculator.py:26-29 | `Calc(None)` selects the whole elementary catalog and `ComplexCalc(None)` the whole composite catalog |
| Calculator.Calc.constructor | readability_calculator/calculator.py:26-29 | the selected metrics are the request, or the whole catalog when there is none, filtered against `AVAILABLE_METRICS` |
| Calculator.Calc.Complex | readability_calculator/calculator.py:40-44 | the same filter against `COMPLEX_METRICS` |
| Calculator.Assemble | readability_calculator/calculator.py:31-35 | the result has the metrics' keys in order, each with its metric's computed value; it fails if and only if some metric raises |
| Calculator.AssembleFailureExtends | readability_calculator/calculator.py:31-35 | once a metric raises, the call ends with that exception whatever follows |
| Calculator.AssembleRaisesFirstFailure | readability_calculator/calculator.py:31-35 | when the metric at position i is the first to raise, the call raises exactly that metric's exception |
| Calculator.Calc.Call | readability_calculator/calculator.py:31-35 | the loop returns `Assemble` computed with the cached tokenizer; the cache gains the tokenizer only when there is a metric and it was not cached, and a tokenizer loaded by the call is built from the given tokenizers and pipeline |
| Calculator.OutputKeysAreFields | test.py:164-174 | every key `Calc` returns is a field of `CalcOutput`, and every key `ComplexCalc` returns is a field of `ComplexCalcOutput` |
| Samples.SimpleTextCounts | test.py:36-76 | for the sample sentence: 9 words, 1 sentence, ASL 9, 57 letters, SLC 57, 22 syllables, 3 polysyllables |
| Samples.SimpleTextIndices | test.py:90-112 | for the sample sentence: Flesch-Kincaid, Coleman-Liau and ARI within 0.0001 of the expected values, and the SMOG radicand 193.8 |
| Samples.SimpleTextSmog | test.py:102-104 | for the sample sentence, SMOG is within 0.0001 of the expected value whenever `sqrt(193.8)` is correct to five decimals |
| Samples.EncodeSimpleText | readability_calculator/base.py:33-37 | `encode` of the sample text is the nine lower-case words, when NLTK returns the text as one sentence with its eleven tokens and `,` and `.` are the only non-word first characters |
| Samples.CleanSimpleTokens | readability_calculator/base.py:36 | cleaning the eleven raw tokens of the sample text keeps the nine words, lower-cased, and drops the comma and the full stop |
| Samples.CleanElevenTokens | readability_calculator/base.py:36 | cleaning eleven tokens of which only the fourth and the eleventh start with a non-word character gives the other nine, lower-cased, in order |
| Samples.CleanDropsOne | readability_calculator/base.py:36 | a single token that starts with a non-word character is dropped |
| Samples.SentenceSyllablesIsSum | readability_calculator/functional.py:89-91 | the syllables of a sentence are the sum of its words' syllable counts |
| Samples.WordsAtLeastIsCount | readability_calculator/functional.py:21 | the words of a sentence that pass the syllable filter are as many as their counts that reach the threshold |
| Samples.ThreeSyllablesArePolysyllabic | readability_calculator/functional.py:94-98 | a three-syllable word is counted as a polysyllable and a two-syllable word is not |
| Samples.UpperCaseVowelsCountNothing | readability_calculator/functional.py:77-81 | upper-case vowels are not in the vowel string and add no syllable |
| Samples.ClauseLabels | readability_calculator/functional.py:113 | "nsubj:pass" and "csubj" pass the clause test and "obj" does not |

## Left out

- Tokenizer set-up (`setup`, `nltk.download`, `spacy_udpipe.download`, model loading): these are downloads and file I/O. The constructor takes their products as an `Externals` value.
- NLTK's `sent_tokenize` and `word_tokenize`, the UDPipe pipeline and its textdescriptives dependency-distance component, the `\W` character class of `re`, `str.lower`: these are foreign code. They are function-typed parameters, and their results are not modelled.
- A parse is reduced to each token's label and dependency distance plus the number of sentences. Nothing else of the parse is modelled.
- Functional.Smog: `math.sqrt` is a parameter, so the SMOG value is stated in terms of it and of the radicand; the arithmetic properties are proved about `SmogRadicand`.
- Floating-point rounding is not modelled. Every quotient is an exact `real`. The sample indices are therefore stated as bounds, not as the test's exact binary values.
- Functional.AslW, Functional.FleschKincaid, Functional.ColemanLiau, Functional.Ari, Functional.Smog: Python returns the integer `0` when a division raises. The model returns the real `0.0`, the same number with another Python type.
- `Calc.__repr__` (calculator.py:37-38) is not modelled: it only formats a string.
- `readability_calculator/types.py`: only its field names are used, to state which keys a calculator can return.
- Calculator.Calc.constructor: the argument is modelled as a dictionary from key to metric class, as the code uses it (`.items()`), although its annotation says `List[str]`. A metric is instantiated from its class and holds no state, so the instance is the `Metric` value itself.
- Base.TokenizerSingleton.Call: the cache is keyed by the class name. Only `Tokenizer` uses the metaclass, so no other key occurs.

## Notes on the code

- On a text with no sentence, `get_slc` raises `UnboundLocalError`, because `slc` is assigned only inside the loop. Its `except ZeroDivisionError` returns 0 only in an unreachable case, so, unlike `get_asl_w`, it has no path that returns 0 for this text.
- `get_n_psyl` counts words with three or more syllables, while its docstring says "more than 3". The model follows the code.
