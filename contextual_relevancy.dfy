/**
 * `process_context` of the contextual-relevancy evaluation: the retrieved
 * pairs of a trace as the list of context strings handed to the metric.
 */
module ContextualRelevancy {
  import opened Wrappers
  import opened Text
  import opened Events
  import opened Prompts

  /** `f"Вопрос: {pair[0]}\nОтвет: {pair[1]}\n"` */
  function ContextEntry(p: QAPair): string
  {
    "Вопрос: " + p.question + "\nОтвет: " + p.answer + "\n"
  }

  /** One entry per pair, in order. */
  function ContextEntries(qa: seq<QAPair>): (cs: seq<string>)
    ensures |cs| == |qa|
    ensures forall k :: 0 <= k < |qa| ==> cs[k] == ContextEntry(qa[k])
  {
    if qa == [] then [] else ContextEntries(qa[..|qa| - 1]) + [ContextEntry(qa[|qa| - 1])]
  }

  /** `process_context`: nothing for a missing or empty list, else the entries as a list, never joined. */
  method ProcessContext(qaPairs: Option<seq<QAPair>>) returns (context: Option<seq<string>>)
    ensures qaPairs.None? || qaPairs.value == [] ==> context.None?
    ensures qaPairs.Some? && qaPairs.value != [] ==> context == Some(ContextEntries(qaPairs.value))
  {
    if qaPairs.None? || |qaPairs.value| == 0 {
      return None;
    }
    var entries: seq<string> := [];
    for i := 0 to |qaPairs.value|
      invariant entries == ContextEntries(qaPairs.value[..i])
    {
      var pair := qaPairs.value[i];
      assert qaPairs.value[..i + 1][..i] == qaPairs.value[..i];
      entries := entries + [ContextEntry(pair)];
    }
    assert qaPairs.value[..|qaPairs.value|] == qaPairs.value;
    context := Some(entries);
  }

  /**
   * The evaluation context and the reply prompt's examples carry the same
   * text per pair: each numbered example is its heading line followed by the
   * context entry and a blank line.
   */
  lemma EntryEmbedsContextEntry(heading: string, n: nat, p: QAPair)
    ensures Entry(heading, n, p) == heading + " " + NatToString(n) + ":\n" + ContextEntry(p) + "\n"
  {
  }
}
