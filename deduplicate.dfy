/**
 * `deduplicate_step`: a stable filter that keeps the first pair for each
 * answer text. The question plays no part in the key.
 */
module Deduplicate {
  import opened Seqs
  import opened Events

  /** The answers of a list of pairs, as a set. */
  function AnswerSet(qa: seq<QAPair>): set<string>
  {
    set p | p in qa :: p.answer
  }

  /** No two pairs share an answer. */
  predicate DistinctAnswers(qa: seq<QAPair>)
  {
    forall i, j :: 0 <= i < j < |qa| ==> qa[i].answer != qa[j].answer
  }

  /** What the loop has built after the pairs `qa`: each pair is appended unless its answer was seen. */
  function Dedup(qa: seq<QAPair>): seq<QAPair>
  {
    if qa == [] then []
    else
      var kept := Dedup(qa[..|qa| - 1]);
      var p := qa[|qa| - 1];
      if p.answer in AnswerSet(kept) then kept else kept + [p]
  }

  /** Position `j` holds the first pair with its answer. */
  predicate FirstOfItsAnswer(qa: seq<QAPair>, j: nat)
    requires j < |qa|
  {
    forall i :: 0 <= i < j ==> qa[i].answer != qa[j].answer
  }

  /** Reference definition: the pairs at first occurrences of their answers, in input order. */
  function FirstOccurrences(qa: seq<QAPair>): seq<QAPair>
  {
    if qa == [] then []
    else
      var init := qa[..|qa| - 1];
      var p := qa[|qa| - 1];
      FirstOccurrences(init) + (if p.answer in AnswerSet(init) then [] else [p])
  }

  /**
   * `deduplicate_step`: the loop over the retrieved pairs with the set of
   * answers seen so far; `removed` is the logged number of dropped pairs.
   */
  method DeduplicateStep(ev: Event) returns (out: Event, removed: nat)
    requires ev.RetrieveEvent?
    ensures out == DeduplicateEvent(Dedup(ev.qa))
    ensures |out.qa| + removed == |ev.qa|
  {
    var qa := ev.qa;
    var unique: set<string> := {};
    var kept: seq<QAPair> := [];
    for i := 0 to |qa|
      invariant kept == Dedup(qa[..i])
      invariant unique == AnswerSet(kept)
    {
      assert qa[..i + 1][..i] == qa[..i];
      var p := qa[i];
      if p.answer in unique {
        continue;
      } else {
        unique := unique + {p.answer};
        kept := kept + [p];
      }
    }
    assert qa[..|qa|] == qa;
    DedupLength(qa);
    removed := |qa| - |kept|;
    out := DeduplicateEvent(kept);
  }

  // ---------------------------------------------------------------------------
  // Lemmas

  lemma {:induction false} DedupLength(qa: seq<QAPair>)
    ensures |Dedup(qa)| <= |qa|
  {
    if qa != [] {
      DedupLength(qa[..|qa| - 1]);
    }
  }

  /** The output answers are exactly the input answers. */
  lemma {:induction false} DedupAnswerSet(qa: seq<QAPair>)
    ensures AnswerSet(Dedup(qa)) == AnswerSet(qa)
  {
    if qa != [] {
      var init := qa[..|qa| - 1];
      var p := qa[|qa| - 1];
      DedupAnswerSet(init);
      assert qa == init + [p];
      assert AnswerSet(qa) == AnswerSet(init) + {p.answer};
      var kept := Dedup(init);
      if p.answer !in AnswerSet(kept) {
        assert AnswerSet(kept + [p]) == AnswerSet(kept) + {p.answer};
      }
    }
  }

  /** No two output pairs share an answer. */
  lemma {:induction false} DedupDistinct(qa: seq<QAPair>)
    ensures DistinctAnswers(Dedup(qa))
  {
    if qa != [] {
      var init := qa[..|qa| - 1];
      var kept := Dedup(init);
      var p := qa[|qa| - 1];
      DedupDistinct(init);
      if p.answer !in AnswerSet(kept) {
        var r := kept + [p];
        forall i, j | 0 <= i < j < |r| ensures r[i].answer != r[j].answer {
          if j == |kept| {
            assert r[i] in kept;
          }
        }
      }
    }
  }

  /** The output keeps input order: it is a subsequence of the input. */
  lemma {:induction false} DedupSubseq(qa: seq<QAPair>)
    ensures IsSubseq(Dedup(qa), qa)
  {
    if qa != [] {
      var init := qa[..|qa| - 1];
      var p := qa[|qa| - 1];
      DedupSubseq(init);
      SubseqSnoc(Dedup(init), init, p);
      assert qa == init + [p];
    }
  }

  /** The loop keeps exactly the first pair of each answer. */
  lemma {:induction false} DedupIsFirstOccurrences(qa: seq<QAPair>)
    ensures Dedup(qa) == FirstOccurrences(qa)
  {
    if qa != [] {
      var init := qa[..|qa| - 1];
      DedupIsFirstOccurrences(init);
      DedupAnswerSet(init);
    }
  }

  /** The reference definition keeps a pair exactly when no earlier pair has its answer. */
  lemma FirstOccurrencesStep(qa: seq<QAPair>)
    requires |qa| > 0
    ensures FirstOccurrences(qa) ==
              FirstOccurrences(qa[..|qa| - 1]) + (if FirstOfItsAnswer(qa, |qa| - 1) then [qa[|qa| - 1]] else [])
  {
    var init := qa[..|qa| - 1];
    var j := |qa| - 1;
    if qa[j].answer in AnswerSet(init) {
      var p :| p in init && p.answer == qa[j].answer;
      var i :| 0 <= i < |init| && init[i] == p;
      assert qa[i].answer == qa[j].answer;
    } else {
      forall i | 0 <= i < j ensures qa[i].answer != qa[j].answer {
        assert qa[i] in init;
      }
    }
  }

  /** A pair whose answer was already seen is dropped, whatever its question. */
  lemma SeenAnswerDropped(qa: seq<QAPair>, p: QAPair)
    requires exists k :: 0 <= k < |qa| && qa[k].answer == p.answer
    ensures Dedup(qa + [p]) == Dedup(qa)
  {
    var k :| 0 <= k < |qa| && qa[k].answer == p.answer;
    assert qa[k] in qa;
    DedupAnswerSet(qa);
    assert (qa + [p])[..|qa|] == qa;
  }

  /** A list with distinct answers is left unchanged. */
  lemma {:induction false} DedupOfDistinct(qa: seq<QAPair>)
    requires DistinctAnswers(qa)
    ensures Dedup(qa) == qa
  {
    if qa != [] {
      var init := qa[..|qa| - 1];
      var j := |qa| - 1;
      assert DistinctAnswers(init);
      DedupOfDistinct(init);
      assert qa[j].answer !in AnswerSet(init) by {
        forall p | p in init ensures p.answer != qa[j].answer {
          var i :| 0 <= i < |init| && init[i] == p;
        }
      }
      assert qa == init + [qa[j]];
    }
  }

  /** Deduplicating twice is deduplicating once. */
  lemma DedupIdempotent(qa: seq<QAPair>)
    ensures Dedup(Dedup(qa)) == Dedup(qa)
  {
    DedupDistinct(qa);
    DedupOfDistinct(Dedup(qa));
  }
}
