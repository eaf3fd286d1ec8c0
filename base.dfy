/** readability_calculator/base.py: the tokenizer and its process-wide instance
    cache, the post-processing of word tokens, and the metric classes that
    pick a representation and apply their formula. */
module Base {
  import opened Wrappers
  import opened Types
  import F = Functional

  /** What the foreign libraries contribute. NLTK's sentence and word
      tokenizers, the UDPipe pipeline with its dependency-distance component,
      the Unicode word-character class of `re` and `str.lower` are all given,
      not modelled. */
  datatype Externals = Externals(
    sentTokenize: string -> seq<string>,
    wordTokenize: string -> seq<string>,
    spacyPipe: string -> ParsedDoc,
    isWordChar: char -> bool,
    lower: string -> string)

  // ---------------------------------------------------------------------------
  // Post-processing of word tokens in Tokenizer.encode
  // ---------------------------------------------------------------------------

  /** Length of the leading run of non-word characters: what `\W+` consumes
      when it is matched at the start of the token. */
  function NonWordRun(token: string, isWordChar: char -> bool): (n: nat)
    ensures n <= |token|
    ensures forall i :: 0 <= i < n ==> !isWordChar(token[i])
    ensures n < |token| ==> isWordChar(token[n])
  {
    if token == [] || isWordChar(token[0]) then 0
    else 1 + NonWordRun(token[1..], isWordChar)
  }

  /** `re.match(r'\W+', token)` succeeds: the match is anchored at the start and
      needs at least one character. */
  predicate MatchesNonWord(token: string, isWordChar: char -> bool) {
    NonWordRun(token, isWordChar) > 0
  }

  /** The inner comprehension of `encode`: drop the tokens the pattern matches,
      lower-case the others. */
  function CleanSentence(tokens: seq<string>, isWordChar: char -> bool, lower: string -> string): (r: seq<string>)
    ensures |r| <= |tokens|
  {
    if tokens == [] then []
    else
      (if MatchesNonWord(tokens[0], isWordChar) then [] else [lower(tokens[0])])
      + CleanSentence(tokens[1..], isWordChar, lower)
  }

  // ---------------------------------------------------------------------------
  // Tokenizer and _TokenizerSingleton
  // ---------------------------------------------------------------------------

  /** A loaded tokenizer. Its construction downloads and loads the models;
      here it is handed what they provide. */
  class Tokenizer {
    const externals: Externals

    constructor (externals: Externals)
      ensures this.externals == externals
    {
      this.externals := externals;
    }

    /** `encode`: split into sentences, split each into word tokens, then keep
        and lower-case the tokens that do not start with a non-word character. */
    function Encode(text: string): (r: TokenizedSentences)
      ensures |r| == |externals.sentTokenize(text)|
      ensures forall i :: 0 <= i < |r| ==>
        r[i] == CleanSentence(externals.wordTokenize(externals.sentTokenize(text)[i]), externals.isWordChar, externals.lower)
      ensures forall i :: 0 <= i < |r| ==> |r[i]| <= |externals.wordTokenize(externals.sentTokenize(text)[i])|
    {
      var sentences := externals.sentTokenize(text);
      var tokenized := seq(|sentences|, i requires 0 <= i < |sentences| => externals.wordTokenize(sentences[i]));
      seq(|tokenized|, i requires 0 <= i < |tokenized| => CleanSentence(tokenized[i], externals.isWordChar, externals.lower))
    }

    /** `encode_spacy`: the parse of the pipeline, passed on unchanged. */
    function EncodeSpacy(text: string): (doc: ParsedDoc)
      ensures doc == externals.spacyPipe(text)
    {
      externals.spacyPipe(text)
    }
  }

  /** The class name under which `Tokenizer()` is cached. */
  const TokenizerClass: string := "Tokenizer"

  /** The metaclass's `_instances` dictionary, shared by every class that uses it. */
  class TokenizerSingleton {
    var instances: map<string, Tokenizer>

    constructor ()
      ensures instances == map[]
    {
      instances := map[];
    }

    /** `_TokenizerSingleton.__call__`: construct and store an instance on the
        first call for `cls`; afterwards return the stored one, ignoring the
        arguments. */
    method Call(cls: string, externals: Externals) returns (instance: Tokenizer)
      modifies this
      ensures cls in instances && instances[cls] == instance
      ensures cls in old(instances) ==> instances == old(instances)
      ensures cls !in old(instances) ==>
        fresh(instance) && instance.externals == externals && instances == old(instances)[cls := instance]
    {
      if cls !in instances {
        var created := new Tokenizer(externals);
        instances := instances[cls := created];
      }
      instance := instances[cls];
    }
  }

  // ---------------------------------------------------------------------------
  // Metric classes and their dispatch
  // ---------------------------------------------------------------------------

  /** The metric classes of the module. */
  datatype Metric =
    | NumWords | NumSents | ASLw | NumLetters | SLC | NSyll | NPsyll
    | DependencyDist | NClause
    | FleshKincaid | ColemanLiau | SMOG | ARI | Syntax

  /** The two values a class's `_call_type` can hold. */
  datatype CallType = Tokenized | SpacyTokenized

  /** The `_call_type` of each class; `Syntax` sets none, since it overrides
      `compute` and reads both representations. */
  function CallTypeOf(m: Metric): (t: Option<CallType>)
    ensures t == Some(SpacyTokenized) <==> m == DependencyDist || m == NClause
    ensures t == None <==> m == Syntax
  {
    match m
    case DependencyDist | NClause => Some(SpacyTokenized)
    case Syntax => None
    case _ => Some(Tokenized)
  }

  /** What a metric's function receives. */
  datatype Input =
    | PlainInput(ts: TokenizedSentences)
    | ParsedInput(doc: ParsedDoc)
    | BothInputs(ts: TokenizedSentences, doc: ParsedDoc)

  /** A metric's value: an integer count or a floating-point index. */
  datatype Value = Int(n: int) | Float(x: real)

  /** The input kind each metric's `__call__` is written for. */
  predicate Accepts(m: Metric, x: Input) {
    match CallTypeOf(m)
    case Some(Tokenized) => x.PlainInput?
    case Some(SpacyTokenized) => x.ParsedInput?
    case None => x.BothInputs?
  }

  /** `convert_to_tokens`: the plain encoding when `_call_type` is
      `TokenizedSentences`, otherwise the parse. */
  function ConvertToTokens(m: Metric, tokenizer: Tokenizer, txt: string): (x: Input)
    requires m != Syntax
    ensures Accepts(m, x)
  {
    if CallTypeOf(m) == Some(Tokenized) then PlainInput(tokenizer.Encode(txt))
    else ParsedInput(tokenizer.EncodeSpacy(txt))
  }

  /** `__call__`: the metric's `_call_function` applied to its input; `sqrt`
      stands for `math.sqrt`, which only SMOG uses. */
  function CallFunction(m: Metric, x: Input, sqrt: real -> real): (r: Result<Value>)
    requires Accepts(m, x)
    ensures r.Failure? <==>
      || (m == SLC && x.ts == [])
      || (m == DependencyDist && |x.doc.tokens| == x.doc.numSents)
      || (m == Syntax && (x.ts == [] || |x.doc.tokens| == x.doc.numSents))
    ensures r.Success? ==>
      (r.value.Int? <==> m in {NumWords, NumSents, NumLetters, NSyll, NPsyll, NClause})
  {
    match m
    case NumWords => Success(Int(F.NumWords(x.ts, 0)))
    case NumSents => Success(Int(F.NumSents(x.ts)))
    case ASLw => Success(Float(F.AslW(x.ts)))
    case NumLetters => Success(Int(F.NLetters(x.ts)))
    case SLC => var v :- F.Slc(x.ts); Success(Float(v))
    case NSyll => Success(Int(F.NSyll(x.ts)))
    case NPsyll => Success(Int(F.NPsyl(x.ts)))
    case DependencyDist => var v :- F.DepDistance(x.doc); Success(Float(v))
    case NClause => Success(Int(F.NClauses(x.doc.tokens)))
    case FleshKincaid => Success(Float(F.FleschKincaid(x.ts)))
    case ColemanLiau => Success(Float(F.ColemanLiau(x.ts)))
    case SMOG => Success(Float(F.Smog(x.ts, sqrt)))
    case ARI => Success(Float(F.Ari(x.ts)))
    case Syntax => var v :- F.SyntaxCompl(x.ts, x.doc); Success(Float(v))
  }

  /** `compute(txt)`: the inherited one for every class but `Syntax`, whose own
      `compute` encodes the text both ways. */
  function Compute(m: Metric, tokenizer: Tokenizer, txt: string, sqrt: real -> real): (r: Result<Value>)
    ensures CallTypeOf(m) == Some(Tokenized) ==> r == CallFunction(m, PlainInput(tokenizer.Encode(txt)), sqrt)
    ensures CallTypeOf(m) == Some(SpacyTokenized) ==> r == CallFunction(m, ParsedInput(tokenizer.EncodeSpacy(txt)), sqrt)
    ensures m == Syntax ==>
      r == CallFunction(m, BothInputs(tokenizer.Encode(txt), tokenizer.EncodeSpacy(txt)), sqrt)
  {
    if m == Syntax then CallFunction(m, BothInputs(tokenizer.Encode(txt), tokenizer.EncodeSpacy(txt)), sqrt)
    else CallFunction(m, ConvertToTokens(m, tokenizer, txt), sqrt)
  }

  /** `compute` as the program runs it: `Tokenizer()` goes through the instance
      cache, which loads the tokenizer on the first call only, and the metric is
      computed with the cached tokenizer. */
  method ComputeMetric(singleton: TokenizerSingleton, m: Metric, txt: string, externals: Externals, sqrt: real -> real)
    returns (r: Result<Value>)
    modifies singleton
    ensures TokenizerClass in singleton.instances
    ensures singleton.instances == old(singleton.instances)[TokenizerClass := singleton.instances[TokenizerClass]]
    ensures TokenizerClass in old(singleton.instances) ==> singleton.instances == old(singleton.instances)
    ensures TokenizerClass !in old(singleton.instances) ==> singleton.instances[TokenizerClass].externals == externals
    ensures r == Compute(m, singleton.instances[TokenizerClass], txt, sqrt)
  {
    var tokenizer := singleton.Call(TokenizerClass, externals);
    r := Compute(m, tokenizer, txt, sqrt);
  }

  // ---------------------------------------------------------------------------
  // Lemmas
  // ---------------------------------------------------------------------------

  /** The pattern matches exactly when the token's first character is not a
      word character; an empty token does not match and is kept. */
  lemma MatchIffLeadingNonWord(token: string, isWordChar: char -> bool)
    ensures MatchesNonWord(token, isWordChar) <==> |token| > 0 && !isWordChar(token[0])
  {
  }

  /** Because the match is anchored only at the start, what follows the first
      character never matters: "ура!" is kept when "у" is a word character. */
  lemma {:induction false} MatchIgnoresLaterCharacters(token: string, rest: string, isWordChar: char -> bool)
    requires |token| > 0
    ensures MatchesNonWord(token + rest, isWordChar) == MatchesNonWord(token, isWordChar)
  {
    assert (token + rest)[0] == token[0];
    MatchIffLeadingNonWord(token, isWordChar);
    MatchIffLeadingNonWord(token + rest, isWordChar);
  }

  /** Cleaning works token by token, so it keeps the order of the tokens. */
  lemma {:induction false} CleanSentenceAppend(a: seq<string>, b: seq<string>, isWordChar: char -> bool, lower: string -> string)
    ensures CleanSentence(a + b, isWordChar, lower) == CleanSentence(a, isWordChar, lower) + CleanSentence(b, isWordChar, lower)
    decreases |a|
  {
    if a == [] {
      assert a + b == b;
    } else {
      var head := if MatchesNonWord(a[0], isWordChar) then [] else [lower(a[0])];
      assert (a + b)[1..] == a[1..] + b;
      assert (a + b)[0] == a[0];
      CleanSentenceAppend(a[1..], b, isWordChar, lower);
      calc {
        CleanSentence(a + b, isWordChar, lower);
        head + CleanSentence(a[1..] + b, isWordChar, lower);
        head + (CleanSentence(a[1..], isWordChar, lower) + CleanSentence(b, isWordChar, lower));
        (head + CleanSentence(a[1..], isWordChar, lower)) + CleanSentence(b, isWordChar, lower);
        CleanSentence(a, isWordChar, lower) + CleanSentence(b, isWordChar, lower);
      }
    }
  }

  /** A cleaned token is the lower-cased form of a kept input token, and every
      kept input token appears lower-cased. */
  lemma {:induction false} CleanSentenceMembers(tokens: seq<string>, isWordChar: char -> bool, lower: string -> string, x: string)
    ensures x in CleanSentence(tokens, isWordChar, lower) <==>
      exists t :: t in tokens && !MatchesNonWord(t, isWordChar) && x == lower(t)
    decreases |tokens|
  {
    if tokens != [] {
      CleanSentenceMembers(tokens[1..], isWordChar, lower, x);
      assert forall t :: t in tokens <==> t == tokens[0] || t in tokens[1..];
    }
  }

  /** When no token starts with a non-word character, cleaning only lower-cases. */
  lemma {:induction false} CleanSentenceKeepsWords(tokens: seq<string>, isWordChar: char -> bool, lower: string -> string)
    requires forall i :: 0 <= i < |tokens| ==> |tokens[i]| > 0 && isWordChar(tokens[i][0])
    ensures CleanSentence(tokens, isWordChar, lower) == seq(|tokens|, i requires 0 <= i < |tokens| => lower(tokens[i]))
    decreases |tokens|
  {
    if tokens != [] {
      CleanSentenceKeepsWords(tokens[1..], isWordChar, lower);
      MatchIffLeadingNonWord(tokens[0], isWordChar);
    }
  }

  /** Only three metrics can raise: `SLC` on a text without sentences,
      `DependencyDist` when tokens and sentences are as many, and `Syntax`,
      which reads both; every other metric masks its zero divisions. */
  lemma FailingMetrics(m: Metric, tokenizer: Tokenizer, txt: string, sqrt: real -> real)
    ensures Compute(m, tokenizer, txt, sqrt).Failure? <==>
      || (m == SLC && tokenizer.Encode(txt) == [])
      || (m == DependencyDist && |tokenizer.EncodeSpacy(txt).tokens| == tokenizer.EncodeSpacy(txt).numSents)
      || (m == Syntax && (tokenizer.Encode(txt) == [] || |tokenizer.EncodeSpacy(txt).tokens| == tokenizer.EncodeSpacy(txt).numSents))
  {
  }

  /** Counts are never negative, nor are Flesch-Kincaid and the syntactic
      complexity, both of which take an absolute value. */
  lemma NonNegativeMetrics(m: Metric, tokenizer: Tokenizer, txt: string, sqrt: real -> real)
    requires Compute(m, tokenizer, txt, sqrt).Success?
    ensures Compute(m, tokenizer, txt, sqrt).value.Int? ==> Compute(m, tokenizer, txt, sqrt).value.n >= 0
    ensures m in {FleshKincaid, Syntax, ASLw, SLC} ==>
      Compute(m, tokenizer, txt, sqrt).value.Float? && Compute(m, tokenizer, txt, sqrt).value.x >= 0.0
  {
  }
}
