/** readability_calculator/calculator.py: the two metric catalogs, the
    selection of metrics at construction and the assembly of the result
    dictionary. */
module Calculator {
  import opened Wrappers
  import opened Types
  import opened Base

  /** The keys of an association list, in order. */
  function Keys<V>(d: seq<(string, V)>): (ks: seq<string>)
    ensures |ks| == |d|
    ensures forall i :: 0 <= i < |d| ==> ks[i] == d[i].0
  {
    seq(|d|, i requires 0 <= i < |d| => d[i].0)
  }

  predicate DistinctKeys<V>(d: seq<(string, V)>) {
    forall i, j :: 0 <= i < j < |d| ==> d[i].0 != d[j].0
  }

  /** A Python dictionary: its items in insertion order, no key twice. */
  type Dict<V> = d: seq<(string, V)> | DistinctKeys(d) witness []

  /** `AVAILABLE_METRICS`: the elementary catalog. */
  const AvailableMetrics: Dict<Metric> := [
    ("num_words", NumWords),
    ("num_sentences", NumSents),
    ("avg_sent_len", ASLw),
    ("num_letters", NumLetters),
    ("avg_sent_len_ch", SLC),
    ("num_syll", NSyll),
    ("num_polysyl", NPsyll),
    ("dep_distance", DependencyDist),
    ("num_clauses", NClause)
  ]

  /** `COMPLEX_METRICS`: the composite catalog. */
  const ComplexMetrics: Dict<Metric> := [
    ("Flesh_Kincaid", FleshKincaid),
    ("Coleman_Liau", ColemanLiau),
    ("SMOG", SMOG),
    ("ARI", ARI),
    ("Syntax_compl", Syntax)
  ]

  /** The dictionary comprehension of `__init__`: the requested items, in the
      caller's order, whose key the catalog knows; the value is the caller's. */
  function Select(requested: Dict<Metric>, catalog: Dict<Metric>): (r: Dict<Metric>)
    ensures |r| <= |requested|
    ensures forall p :: p in r <==> p in requested && p.0 in Keys(catalog)
  {
    if requested == [] then []
    else
      var rest := Select(requested[1..], catalog);
      if requested[0].0 in Keys(catalog) then
        assert forall p :: p in rest ==> p.0 != requested[0].0 by {
          forall p | p in rest ensures p.0 != requested[0].0 {
            var j :| 1 <= j < |requested| && requested[j] == p;
          }
        }
        [requested[0]] + rest
      else rest
  }

  /** Metric `i` is the first of `metrics` whose computation raises. */
  predicate FirstFailure(metrics: seq<(string, Metric)>, i: nat, tokenizer: Tokenizer, text: string, sqrt: real -> real)
    requires i < |metrics|
  {
    && Compute(metrics[i].1, tokenizer, text, sqrt).Failure?
    && forall j :: 0 <= j < i ==> Compute(metrics[j].1, tokenizer, text, sqrt).Success?
  }

  /** The dictionary `__call__` returns, computed with one tokenizer: the
      metrics' values under their keys, or the first exception raised. */
  function Assemble(metrics: seq<(string, Metric)>, tokenizer: Tokenizer, text: string, sqrt: real -> real)
    : (r: Result<seq<(string, Value)>>)
    ensures r.Success? ==> Keys(r.value) == Keys(metrics)
    ensures r.Success? ==> forall i :: 0 <= i < |metrics| ==>
      Compute(metrics[i].1, tokenizer, text, sqrt) == Success(r.value[i].1)
    ensures r.Failure? <==> exists i :: 0 <= i < |metrics| && Compute(metrics[i].1, tokenizer, text, sqrt).Failure?
  {
    if metrics == [] then Success([])
    else
      var init := metrics[..|metrics| - 1];
      var (k, m) := metrics[|metrics| - 1];
      match Assemble(init, tokenizer, text, sqrt)
      case Failure(e) => Failure(e)
      case Success(acc) =>
        match Compute(m, tokenizer, text, sqrt)
        case Failure(e) => Failure(e)
        case Success(v) => Success(acc + [(k, v)])
  }

  /** `Calc` and its subclass `ComplexCalc`: the selected metric instances. */
  class Calc {
    var metricsToCalculate: Dict<Metric>

    /** `Calc.__init__`: filter the request, or the whole catalog when there is
        none, against `AVAILABLE_METRICS`. */
    constructor (requested: Option<Dict<Metric>>)
      ensures metricsToCalculate == Select(requested.GetOr(AvailableMetrics), AvailableMetrics)
    {
      metricsToCalculate := Select(requested.GetOr(AvailableMetrics), AvailableMetrics);
    }

    /** `ComplexCalc.__init__`: the same against `COMPLEX_METRICS`. */
    constructor Complex(requested: Option<Dict<Metric>>)
      ensures metricsToCalculate == Select(requested.GetOr(ComplexMetrics), ComplexMetrics)
    {
      metricsToCalculate := Select(requested.GetOr(ComplexMetrics), ComplexMetrics);
    }

    /** `__call__`: compute each selected metric in order and store its value
        under its key; the first metric that raises aborts the call. Every
        `compute` goes through the tokenizer cache. */
    method Call(text: string, singleton: TokenizerSingleton, externals: Externals, sqrt: real -> real)
      returns (r: Result<Dict<Value>>)
      modifies singleton
      ensures metricsToCalculate == [] ==> r == Success([]) && singleton.instances == old(singleton.instances)
      ensures metricsToCalculate != [] ==>
        && TokenizerClass in singleton.instances
        && singleton.instances == old(singleton.instances)[TokenizerClass := singleton.instances[TokenizerClass]]
        && (TokenizerClass in old(singleton.instances) ==> singleton.instances == old(singleton.instances))
        && (TokenizerClass !in old(singleton.instances) ==> singleton.instances[TokenizerClass].externals == externals)
        && r == Assemble(metricsToCalculate, singleton.instances[TokenizerClass], text, sqrt)
    {
      var metrics := metricsToCalculate;
      var resultDict: seq<(string, Value)> := [];
      for i := 0 to |metrics|
        invariant i == 0 ==> resultDict == [] && singleton.instances == old(singleton.instances)
        invariant i > 0 ==>
          && TokenizerClass in singleton.instances
          && singleton.instances == old(singleton.instances)[TokenizerClass := singleton.instances[TokenizerClass]]
          && (TokenizerClass in old(singleton.instances) ==> singleton.instances == old(singleton.instances))
          && (TokenizerClass !in old(singleton.instances) ==> singleton.instances[TokenizerClass].externals == externals)
          && Assemble(metrics[..i], singleton.instances[TokenizerClass], text, sqrt) == Success(resultDict)
      {
        var (k, m) := metrics[i];
        var v := ComputeMetric(singleton, m, text, externals, sqrt);
        AssembleStep(metrics, i, singleton.instances[TokenizerClass], text, sqrt);
        if v.Failure? {
          AssembleFailureExtends(metrics, i + 1, singleton.instances[TokenizerClass], text, sqrt);
          return Failure(v.error);
        }
        resultDict := resultDict + [(k, v.value)];
      }
      assert metrics[..|metrics|] == metrics;
      r := Success(resultDict);
    }
  }

  // ---------------------------------------------------------------------------
  // Lemmas
  // ---------------------------------------------------------------------------

  /** One more metric: the result so far, extended by that metric's value under
      its key, or the first exception. */
  lemma AssembleStep(metrics: seq<(string, Metric)>, i: nat, tokenizer: Tokenizer, text: string, sqrt: real -> real)
    requires i < |metrics|
    ensures Assemble(metrics[..i + 1], tokenizer, text, sqrt) ==
      match Assemble(metrics[..i], tokenizer, text, sqrt)
      case Failure(e) => Failure(e)
      case Success(acc) =>
        match Compute(metrics[i].1, tokenizer, text, sqrt)
        case Failure(e) => Failure(e)
        case Success(v) => Success(acc + [(metrics[i].0, v)])
  {
    assert metrics[..i + 1][..i] == metrics[..i];
  }

  /** Once a prefix of the metrics fails, the whole call fails with the same
      exception. */
  lemma {:induction false} AssembleFailureExtends(metrics: seq<(string, Metric)>, n: nat, tokenizer: Tokenizer, text: string, sqrt: real -> real)
    requires n <= |metrics|
    requires Assemble(metrics[..n], tokenizer, text, sqrt).Failure?
    ensures Assemble(metrics, tokenizer, text, sqrt) == Assemble(metrics[..n], tokenizer, text, sqrt)
    decreases |metrics| - n
  {
    if n < |metrics| {
      var init := metrics[..|metrics| - 1];
      assert init[..n] == metrics[..n];
      AssembleFailureExtends(init, n, tokenizer, text, sqrt);
      assert Assemble(init, tokenizer, text, sqrt).Failure?;
    } else {
      assert metrics[..n] == metrics;
    }
  }

  /** The exception of the call is the one raised by the first metric that
      raises. */
  lemma AssembleRaisesFirstFailure(metrics: seq<(string, Metric)>, i: nat, tokenizer: Tokenizer, text: string, sqrt: real -> real)
    requires i < |metrics| && FirstFailure(metrics, i, tokenizer, text, sqrt)
    ensures Assemble(metrics, tokenizer, text, sqrt) == Failure(Compute(metrics[i].1, tokenizer, text, sqrt).error)
  {
    assert forall j :: 0 <= j < i ==> metrics[..i][j] == metrics[j];
    assert Assemble(metrics[..i], tokenizer, text, sqrt).Success?;
    AssembleStep(metrics, i, tokenizer, text, sqrt);
    AssembleFailureExtends(metrics, i + 1, tokenizer, text, sqrt);
  }

  /** Selection distributes over concatenation: the retained items keep the
      order of the caller's dictionary. */
  lemma {:induction false} SelectKeepsOrder(a: Dict<Metric>, b: Dict<Metric>, catalog: Dict<Metric>)
    requires DistinctKeys(a + b)
    ensures Select(a + b, catalog) == Select(a, catalog) + Select(b, catalog)
    decreases |a|
  {
    if a == [] {
      assert a + b == b;
    } else {
      assert (a + b)[1..] == a[1..] + b;
      assert (a + b)[0] == a[0];
      SelectKeepsOrder(a[1..], b, catalog);
    }
  }

  /** A request whose keys are all known is retained whole. */
  lemma {:induction false} SelectKnownKeys(requested: Dict<Metric>, catalog: Dict<Metric>)
    requires forall p :: p in requested ==> p.0 in Keys(catalog)
    ensures Select(requested, catalog) == requested
    decreases |requested|
  {
    if requested != [] {
      SelectKnownKeys(requested[1..], catalog);
    }
  }

  /** Every item's key is among the dictionary's keys. */
  lemma KeysOfItems<V>(d: seq<(string, V)>)
    ensures forall p :: p in d ==> p.0 in Keys(d)
  {
    forall p | p in d ensures p.0 in Keys(d) {
      var i :| 0 <= i < |d| && d[i] == p;
      assert Keys(d)[i] == p.0;
    }
  }

  /** The keys of the selection are among the keys of the catalog. */
  lemma SelectedKeysInCatalog(requested: Dict<Metric>, catalog: Dict<Metric>)
    ensures forall k :: k in Keys(Select(requested, catalog)) ==> k in Keys(catalog)
  {
    var r := Select(requested, catalog);
    forall k | k in Keys(r) ensures k in Keys(catalog) {
      var i :| 0 <= i < |r| && Keys(r)[i] == k;
      assert r[i] in r;
    }
  }

  lemma AvailableKeys()
    ensures Keys(AvailableMetrics) == ["num_words", "num_sentences", "avg_sent_len", "num_letters",
                                       "avg_sent_len_ch", "num_syll", "num_polysyl", "dep_distance", "num_clauses"]
  {
  }

  lemma ComplexKeys()
    ensures Keys(ComplexMetrics) == ["Flesh_Kincaid", "Coleman_Liau", "SMOG", "ARI", "Syntax_compl"]
  {
  }

  /** `Calc(None)` selects the nine elementary metrics in catalog order, and
      `ComplexCalc(None)` the five composite ones. */
  lemma DefaultSelection()
    ensures Select(AvailableMetrics, AvailableMetrics) == AvailableMetrics
    ensures Select(ComplexMetrics, ComplexMetrics) == ComplexMetrics
  {
    KeysOfItems(AvailableMetrics);
    SelectKnownKeys(AvailableMetrics, AvailableMetrics);
    KeysOfItems(ComplexMetrics);
    SelectKnownKeys(ComplexMetrics, ComplexMetrics);
  }

  /** The two catalogs share no key. */
  lemma CatalogsDisjoint(k: string)
    ensures !(k in Keys(AvailableMetrics) && k in Keys(ComplexMetrics))
  {
  }

  /** Every key `Calc` can return is a field of `CalcOutput`, and every key
      `ComplexCalc` can return is a field of `ComplexCalcOutput`. */
  lemma OutputKeysAreFields(requested: Option<Dict<Metric>>, tokenizer: Tokenizer, text: string, sqrt: real -> real)
    ensures var r := Assemble(Select(requested.GetOr(AvailableMetrics), AvailableMetrics), tokenizer, text, sqrt);
      r.Success? ==> forall k :: k in Keys(r.value) ==> k in CalcOutputFields
    ensures var r := Assemble(Select(requested.GetOr(ComplexMetrics), ComplexMetrics), tokenizer, text, sqrt);
      r.Success? ==> forall k :: k in Keys(r.value) ==> k in ComplexCalcOutputFields
  {
    SelectedKeysInCatalog(requested.GetOr(AvailableMetrics), AvailableMetrics);
    SelectedKeysInCatalog(requested.GetOr(ComplexMetrics), ComplexMetrics);
    AvailableKeys();
    ComplexKeys();
  }
}
