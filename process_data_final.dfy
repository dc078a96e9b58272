/**
 * The data-preparation twin of the query normaliser, `preprocess` of the
 * dataset script. Its glossary literal repeats four abbreviations; Python
 * keeps the first position of a repeated key and the last value.
 */
module ProcessDataFinal {
  import opened Wrappers
  import opened Text
  import opened Glossary
  import opened Normaliser
  import opened FinalGlossary

  /**
   * `preprocess`: the same pipeline as the assistant's normaliser, over this
   * script's dictionary.
   */
  method Preprocess(text: string, normalForm: string -> string) returns (r: string)
    ensures r == Normalised(GlossaryDict, normalForm, text)
    ensures SingleSpaced(r)
    ensures Words(r) == Kept(Tokens(Expand(GlossaryDict, Mask(text))), normalForm)
    ensures forall w :: w in Words(r) ==> CleanToken(w) && !IsStop(normalForm(w))
  {
    r := Normalise(GlossaryDict, normalForm, text);
    NormalisedProperties(GlossaryDict, normalForm, text);
  }
}
