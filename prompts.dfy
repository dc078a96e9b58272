/**
 * Pieces shared by the prompts of the relevance filter and of the reply: the
 * model families the code distinguishes, the `documents` list handed to the
 * Vikhr models, and the numbered example text of the other formats.
 */
module Prompts {
  import opened Text
  import opened Seqs
  import opened Events

  /** The three prompt formats: Vikhr (documents role), Gemma (no system role) and any other model. */
  datatype ModelFamily = Vikhr | Gemma | OtherModel

  const VikhrModelName: string := "Vikhrmodels/Vikhr-Nemo-12B-Instruct-R-21-09-24"
  const GemmaModelName: string := "google/gemma-2-9b-it"

  /** One element of a documents list: `{"doc_id": id, <questionKey>: question, <answerKey>: answer}`. */
  datatype DocRecord = DocRecord(docId: nat, questionKey: string, question: string, answerKey: string, answer: string)

  /** The documents list of the pairs, with ids `0 .. n-1` in order. */
  function DocRecords(qa: seq<QAPair>, questionKey: string, answerKey: string): (ds: seq<DocRecord>)
    ensures |ds| == |qa|
    ensures forall k :: 0 <= k < |qa| ==>
              ds[k] == DocRecord(k, questionKey, qa[k].question, answerKey, qa[k].answer)
  {
    if qa == [] then []
    else
      var init := qa[..|qa| - 1];
      var p := qa[|qa| - 1];
      DocRecords(init, questionKey, answerKey) + [DocRecord(|init|, questionKey, p.question, answerKey, p.answer)]
  }

  /** `for idx, (question, answer) in enumerate(qa): documents.append({...})` */
  method BuildDocRecords(qa: seq<QAPair>, questionKey: string, answerKey: string) returns (ds: seq<DocRecord>)
    ensures ds == DocRecords(qa, questionKey, answerKey)
  {
    ds := [];
    for i := 0 to |qa|
      invariant ds == DocRecords(qa[..i], questionKey, answerKey)
    {
      assert qa[..i + 1][..i] == qa[..i];
      ds := ds + [DocRecord(i, questionKey, qa[i].question, answerKey, qa[i].answer)];
    }
    assert qa[..|qa|] == qa;
  }

  /** One rendered pair: `f"{heading} {n}:\nВопрос: {question}\nОтвет: {answer}\n\n"`. */
  function Entry(heading: string, n: nat, p: QAPair): string
  {
    heading + " " + NatToString(n) + ":\nВопрос: " + p.question + "\nОтвет: " + p.answer + "\n\n"
  }

  /** The text accumulated by `text += Entry(heading, start + idx, pair)` over `enumerate(qa)`. */
  function Numbered(heading: string, start: nat, qa: seq<QAPair>): string
  {
    if qa == [] then ""
    else
      var init := qa[..|qa| - 1];
      Numbered(heading, start, init) + Entry(heading, start + |init|, qa[|qa| - 1])
  }

  /** The entries of the pairs, numbered from `start` in input order. */
  function Entries(heading: string, start: nat, qa: seq<QAPair>): (es: seq<string>)
    ensures |es| == |qa|
  {
    seq(|qa|, k requires 0 <= k < |qa| => Entry(heading, start + k, qa[k]))
  }

  /** The accumulated text is the entries in order, the `k`-th numbered `start + k`. */
  lemma {:induction false} NumberedEntries(heading: string, start: nat, qa: seq<QAPair>)
    ensures Numbered(heading, start, qa) == Flatten(Entries(heading, start, qa))
  {
    if qa != [] {
      var init := qa[..|qa| - 1];
      NumberedEntries(heading, start, init);
      assert Entries(heading, start, qa) == Entries(heading, start, init) + [Entry(heading, start + |init|, qa[|qa| - 1])];
      FlattenSnoc(Entries(heading, start, init), Entry(heading, start + |init|, qa[|qa| - 1]));
    }
  }

  /** The loop `for idx, (question, answer) in enumerate(qa): text += ...` */
  method RenderNumbered(heading: string, start: nat, qa: seq<QAPair>) returns (text: string)
    ensures text == Numbered(heading, start, qa)
  {
    text := "";
    for i := 0 to |qa|
      invariant text == Numbered(heading, start, qa[..i])
    {
      assert qa[..i + 1][..i] == qa[..i];
      text := text + Entry(heading, start + i, qa[i]);
    }
    assert qa[..|qa|] == qa;
  }
}
