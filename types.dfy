/** The data types of readability_calculator/types.py and of the parsed representation. */
module Types {

  /** A text as sentences of word tokens: the plain representation. */
  type TokenizedSentences = seq<seq<string>>

  /** One token of a dependency parse: its relation label (`token.dep_`) and the
      dependency distance the parse pipeline attaches to it. */
  datatype ParsedToken = ParsedToken(dep: string, depDistance: real)

  /** A parsed document: its tokens in surface order and how many sentences
      the parser found (`len(list(doc.sents))`). */
  datatype ParsedDoc = ParsedDoc(tokens: seq<ParsedToken>, numSents: nat)

  /** Field names of the `CalcOutput` typed dictionary. */
  const CalcOutputFields: set<string> := {
    "num_words", "num_sentences", "avg_sent_len", "num_letters", "avg_sent_len_ch",
    "num_syll", "num_polysyl", "dep_distance", "num_clauses"
  }

  /** Field names of `ComplexCalcOutput`, which extends `CalcOutput`. */
  const ComplexCalcOutputFields: set<string> :=
    CalcOutputFields + {"Flesh_Kincaid", "Coleman_Liau", "SMOG", "ARI", "Syntax_compl"}
}
