/**
 * The relevance filter: the pairs are cut into batches of ten, each batch is
 * put to the classifier model, whose reply is read as a list of scores,
 * repaired to the batch length, and used to keep the pairs scored 1. The
 * batch results are concatenated in batch order.
 */
module SanityCheck {
  import opened Wrappers
  import opened Text
  import opened Seqs
  import opened Events
  import opened Conversation
  import opened Prompts
  import opened WorkflowContext
  import Reply

  const BatchSize: nat := 10

  /** `[qa[i:i + 10] for i in range(0, len(qa), 10)]` */
  function Batches(qa: seq<QAPair>): (bs: seq<seq<QAPair>>)
    ensures Flatten(bs) == qa
    ensures |bs| == (|qa| + BatchSize - 1) / BatchSize
    ensures forall k :: 0 <= k < |bs| ==> bs[k] == qa[BatchSize * k .. BatchEnd(|qa|, k)]
    decreases |qa|
  {
    if qa == [] then []
    else if |qa| <= BatchSize then
      assert Flatten([qa]) == qa + Flatten([]);
      [qa]
    else
      var rest := Batches(qa[BatchSize..]);
      BatchesCons(qa, rest);
      [qa[..BatchSize]] + rest
  }

  /** Where the slice `k` ends: ten further on, or at the end of the input. */
  function BatchEnd(n: nat, k: nat): nat
  {
    if BatchSize * k + BatchSize <= n then BatchSize * k + BatchSize else n
  }

  /** The first slice in front of the slices of the rest gives the slices of the whole. */
  lemma BatchesCons(qa: seq<QAPair>, rest: seq<seq<QAPair>>)
    requires |qa| > BatchSize
    requires Flatten(rest) == qa[BatchSize..]
    requires |rest| == (|qa| - BatchSize + BatchSize - 1) / BatchSize
    requires forall k :: 0 <= k < |rest| ==> rest[k] == qa[BatchSize..][BatchSize * k .. BatchEnd(|qa| - BatchSize, k)]
    ensures Flatten([qa[..BatchSize]] + rest) == qa
    ensures |[qa[..BatchSize]] + rest| == (|qa| + BatchSize - 1) / BatchSize
    ensures forall k :: 0 <= k < |rest| + 1 ==> ([qa[..BatchSize]] + rest)[k] == qa[BatchSize * k .. BatchEnd(|qa|, k)]
  {
    var bs := [qa[..BatchSize]] + rest;
    assert qa == qa[..BatchSize] + qa[BatchSize..];
    assert bs[1..] == rest;
    forall k | 1 <= k < |rest| + 1
      ensures bs[k] == qa[BatchSize * k .. BatchEnd(|qa|, k)]
    {
      assert bs[k] == rest[k - 1];
      assert BatchEnd(|qa|, k) == BatchSize + BatchEnd(|qa| - BatchSize, k - 1);
    }
  }

  // ---------------------------------------------------------------------------
  // The prompt of one batch

  /** The model name the relevance filter compares against, as it is written there. */
  const SanityVikhrModelName: string := "VikhrMODEL_NAMEs/Vikhr-Nemo-12B-Instruct-R-21-09-24"

  /** The branch the relevance filter takes for a model name, as written. */
  function SanityFamilyAsWritten(modelName: string): ModelFamily
  {
    if modelName == SanityVikhrModelName then Vikhr
    else if modelName == GemmaModelName then Gemma
    else OtherModel
  }

  /**
   * The two steps format their prompts differently for exactly two model
   * names: the Vikhr name of the reply step, which the relevance filter
   * treats as an unknown model, and the misspelt name, which no deployment uses.
   */
  lemma FamiliesDisagree(modelName: string)
    ensures SanityFamilyAsWritten(modelName) != Reply.ReplyFamily(modelName) <==>
              modelName == VikhrModelName || modelName == SanityVikhrModelName
    ensures SanityFamilyAsWritten(VikhrModelName) == OtherModel
  {
    assert |VikhrModelName| != |SanityVikhrModelName|;
    assert |VikhrModelName| != |GemmaModelName|;
    assert |SanityVikhrModelName| != |GemmaModelName|;
  }

  /** The branch of the relevance filter with the Vikhr name spelt as in the reply step: the corrected reading. */
  function SanityFamily(modelName: string): ModelFamily
  {
    if modelName == VikhrModelName then Vikhr
    else if modelName == GemmaModelName then Gemma
    else OtherModel
  }

  /**
   * The correction changes the branch for exactly the two Vikhr spellings,
   * and with it the relevance filter takes the reply step's branch for every
   * model name.
   */
  lemma CorrectedFamily(modelName: string)
    ensures SanityFamily(modelName) != SanityFamilyAsWritten(modelName) <==>
              modelName == VikhrModelName || modelName == SanityVikhrModelName
    ensures SanityFamily(modelName) == Reply.ReplyFamily(modelName)
  {
    assert |VikhrModelName| != |SanityVikhrModelName|;
    assert |VikhrModelName| != |GemmaModelName|;
    assert |SanityVikhrModelName| != |GemmaModelName|;
  }

  const SystemPrompt: string :=
    "Твоя задача - определить, релевантны ли предоставленные документы запросу пользователя. "
    + "Релевантым считай тот документ, в котором тема хотя бы смежно связана с запросом. "
    + "Верни ровно один массив из строк '0' или '1', где '1' означает, что документ релевантен запросу, "
    + "а '0' - что нерелевантен. Массив должен иметь ровно столько элементов, сколько документов в запросе."

  /** `", ".join([msg['content'] for msg in previous_user_messages])` */
  function PreviousText(previous: seq<Message>): string
  {
    Join(", ", Contents(previous))
  }

  /** The window of at most two messages renders as nothing, one content, or two contents around `", "`. */
  lemma PreviousTextOfWindow(previous: seq<Message>)
    requires |previous| <= 2
    ensures |previous| == 0 ==> PreviousText(previous) == ""
    ensures |previous| == 1 ==> PreviousText(previous) == previous[0].content
    ensures |previous| == 2 ==> PreviousText(previous) == previous[0].content + ", " + previous[1].content
  {
    var cs := Contents(previous);
    if |previous| == 2 {
      assert cs[1..] == [cs[1]];
      assert Join(", ", cs[1..]) == cs[1];
    }
  }

  const ContextOpening: string := "Прошлые сообщения пользователя: '"
  const QueryOpening: string := "'. Запрос пользователя: '"
  const CountOpening: string :=
    "'. Оцени релевантность каждого документа к этому запросу с учетом контекста и верни массив из "
  const CountClosing: string := " элементов, где каждый элемент - '0' или '1'."
  const DocumentsHeading: string := "Документы:\n"

  /** The closing request of every format: context, query, and the number of scores wanted. */
  function Request(previousText: string, queryClean: string, n: nat): string
  {
    ContextOpening + previousText + QueryOpening + queryClean + CountOpening + NatToString(n) + CountClosing
  }

  /** Everything a batch is judged with: the branch, the query, the context window and the two services. */
  datatype Judge = Judge(
    family: ModelFamily,
    queryClean: string,
    previous: seq<Message>,
    dumps: seq<DocRecord> -> string,           // json.dumps(documents, ensure_ascii=False)
    classify: seq<Message> -> Option<seq<int>>) // the model call; None when the reply is no JSON list of integers

  /** The message list sent for one batch. */
  function SanityMessages(judge: Judge, batch: seq<QAPair>): seq<Message>
  {
    var request := Request(PreviousText(judge.previous), judge.queryClean, |batch|);
    match judge.family
    case Vikhr =>
      [Message("system", SystemPrompt),
       Message("documents", judge.dumps(DocRecords(batch, "title", "content"))),
       Message("user", request)]
    case Gemma =>
      [Message("user", SystemPrompt + "\n\n" + DocumentsHeading + Numbered("Документ", 0, batch) + "\n\n" + request)]
    case OtherModel =>
      [Message("system", SystemPrompt),
       Message("user", DocumentsHeading + Numbered("Документ", 0, batch) + "\n\n" + request)]
  }

  /** Each format ends with a user message that closes with the request for `len(batch)` scores. */
  lemma SanityMessagesShape(judge: Judge, batch: seq<QAPair>)
    ensures var ms := SanityMessages(judge, batch);
            && |ms| == (match judge.family case Vikhr => 3 case Gemma => 1 case OtherModel => 2)
            && ms[|ms| - 1].role == "user"
            && EndsWith(ms[|ms| - 1].content, Request(PreviousText(judge.previous), judge.queryClean, |batch|))
            && (judge.family != Gemma ==> ms[0] == Message("system", SystemPrompt))
  {
    var request := Request(PreviousText(judge.previous), judge.queryClean, |batch|);
    var documentsText := Numbered("Документ", 0, batch);
    match judge.family
    case Vikhr =>
      EndsWithConcat("", request);
      assert "" + request == request;
    case Gemma =>
      EndsWithConcat(SystemPrompt + "\n\n" + DocumentsHeading + documentsText + "\n\n", request);
    case OtherModel =>
      EndsWithConcat(DocumentsHeading + documentsText + "\n\n", request);
  }

  /**
   * Under the deployed Vikhr name the relevance filter, as written, sends no
   * `documents` message, while the reply step sends its examples in one; the
   * corrected branch sends the batch in a `documents` message as well.
   */
  lemma VikhrDocumentsRole(queryClean: string, previous: seq<Message>, dumps: seq<DocRecord> -> string,
                           classify: seq<Message> -> Option<seq<int>>, batch: seq<QAPair>,
                           qa: seq<QAPair>, history: seq<Message>)
    ensures var ms := SanityMessages(Judge(SanityFamilyAsWritten(VikhrModelName), queryClean, previous, dumps, classify), batch);
            forall k :: 0 <= k < |ms| ==> ms[k].role != "documents"
    ensures var ms := SanityMessages(Judge(SanityFamily(VikhrModelName), queryClean, previous, dumps, classify), batch);
            |ms| == 3 && ms[1] == Message("documents", dumps(DocRecords(batch, "title", "content")))
    ensures var p := Reply.ReplyPrompt(Reply.ReplyFamily(VikhrModelName), queryClean, qa, history, dumps);
            |p.messages| == |history| + 3 && p.messages[|history| + 1].role == "documents"
  {
    FamiliesDisagree(VikhrModelName);
    Reply.VikhrPromptShape(queryClean, qa, history, dumps);
  }

  /** The branch-by-branch construction of the message list, with its loops over the batch. */
  method BuildSanityMessages(judge: Judge, batch: seq<QAPair>) returns (messages: seq<Message>)
    ensures messages == SanityMessages(judge, batch)
  {
    var previousText := PreviousText(judge.previous);
    var userContent: string;
    if judge.family == Vikhr {
      var documents := BuildDocRecords(batch, "title", "content");
      userContent := Request(previousText, judge.queryClean, |batch|);
      messages := [Message("system", SystemPrompt), Message("documents", judge.dumps(documents)), Message("user", userContent)];
    } else if judge.family == Gemma {
      var documentsText := RenderNumbered("Документ", 0, batch);
      userContent := SystemPrompt + "\n\n" + DocumentsHeading + documentsText + "\n\n" + Request(previousText, judge.queryClean, |batch|);
      messages := [Message("user", userContent)];
    } else {
      var documentsText := RenderNumbered("Документ", 0, batch);
      userContent := DocumentsHeading + documentsText + "\n\n" + Request(previousText, judge.queryClean, |batch|);
      messages := [Message("system", SystemPrompt), Message("user", userContent)];
    }
  }

  // ---------------------------------------------------------------------------
  // Scores

  function Zeros(n: nat): (z: seq<int>)
    ensures |z| == n && forall k :: 0 <= k < n ==> z[k] == 0
  {
    seq(n, k => 0)
  }

  /** The score list after the length check: padded with zeros, or cut to its first `n` entries. */
  function Repaired(scores: seq<int>, n: nat): (r: seq<int>)
    ensures |r| == n
    ensures forall k :: 0 <= k < n && k < |scores| ==> r[k] == scores[k]
    ensures forall k :: |scores| <= k < n ==> r[k] == 0
  {
    if |scores| < n then scores + Zeros(n - |scores|) else scores[..n]
  }

  /** The pairs whose aligned score is exactly 1, in order. */
  function Relevant(batch: seq<QAPair>, scores: seq<int>): seq<QAPair>
    requires |scores| == |batch|
  {
    if batch == [] then []
    else
      var n := |batch| - 1;
      Relevant(batch[..n], scores[..n]) + (if scores[n] == 1 then [batch[n]] else [])
  }

  lemma {:induction false} RelevantSubseq(batch: seq<QAPair>, scores: seq<int>)
    requires |scores| == |batch|
    ensures IsSubseq(Relevant(batch, scores), batch)
  {
    if batch != [] {
      var n := |batch| - 1;
      var r := Relevant(batch[..n], scores[..n]);
      RelevantSubseq(batch[..n], scores[..n]);
      SubseqSnoc(r, batch[..n], batch[n]);
      assert batch == batch[..n] + [batch[n]];
      if scores[n] == 1 {
        assert Relevant(batch, scores) == r + [batch[n]];
      } else {
        assert Relevant(batch, scores) == r;
      }
    }
  }

  /** In a batch of distinct pairs, a pair is kept if and only if its score is exactly 1. */
  lemma {:induction false} RelevantIff(batch: seq<QAPair>, scores: seq<int>)
    requires |scores| == |batch|
    requires forall i, j :: 0 <= i < j < |batch| ==> batch[i] != batch[j]
    ensures forall i :: 0 <= i < |batch| ==> (batch[i] in Relevant(batch, scores) <==> scores[i] == 1)
  {
    if batch != [] {
      var n := |batch| - 1;
      var init, r := batch[..n], Relevant(batch[..n], scores[..n]);
      RelevantIff(init, scores[..n]);
      RelevantSubseq(init, scores[..n]);
      SubseqMembers(r, init);
      assert forall i :: 0 <= i < n ==> init[i] != batch[n];
      assert batch[n] !in init;
      forall i | 0 <= i < |batch|
        ensures batch[i] in Relevant(batch, scores) <==> scores[i] == 1
      {
        if i < n {
          assert init[i] == batch[i] && scores[..n][i] == scores[i];
        }
      }
    }
  }

  /** The pairs kept for a reply: those scored 1 after repair, or a failure when the reply did not parse. */
  function Judged(batch: seq<QAPair>, reply: Option<seq<int>>): Result<seq<QAPair>>
  {
    if reply.None? then Failure(MalformedClassifierReply)
    else Success(Relevant(batch, Repaired(reply.value, |batch|)))
  }

  /** The classifier's parsed reply for each batch, given the prompt of that batch. */
  function Verdict(judge: Judge): seq<QAPair> -> Option<seq<int>>
  {
    batch => judge.classify(SanityMessages(judge, batch))
  }

  /** `process_qa_batch`: build the prompt, read the scores, repair their length, keep the pairs scored 1. */
  method ProcessQaBatch(judge: Judge, batch: seq<QAPair>) returns (r: Result<seq<QAPair>>)
    ensures r == Judged(batch, Verdict(judge)(batch))
  {
    var messages := BuildSanityMessages(judge, batch);
    var reply := judge.classify(messages);
    if reply.None? {
      return Failure(MalformedClassifierReply);
    }
    var scores := reply.value;
    if |scores| != |batch| {
      if |scores| < |batch| {
        scores := scores + Zeros(|batch| - |scores|);
      } else {
        scores := scores[..|batch|];
      }
    }
    assert scores == Repaired(reply.value, |batch|);
    var filtered: seq<QAPair> := [];
    for i := 0 to |batch|
      invariant filtered == Relevant(batch[..i], scores[..i])
    {
      assert batch[..i + 1][..i] == batch[..i] && scores[..i + 1][..i] == scores[..i];
      if scores[i] == 1 {
        filtered := filtered + [batch[i]];
      }
    }
    assert batch[..|batch|] == batch && scores[..|scores|] == scores;
    r := Success(filtered);
  }

  /** A batch result is a subsequence of its batch. */
  lemma JudgedSubseq(batch: seq<QAPair>, reply: Option<seq<int>>)
    ensures Judged(batch, reply).Success? ==> IsSubseq(Judged(batch, reply).value, batch)
    ensures Judged(batch, reply).Failure? <==> reply.None?
  {
    if reply.Some? {
      RelevantSubseq(batch, Repaired(reply.value, |batch|));
    }
  }

  // ---------------------------------------------------------------------------
  // All batches

  /** The batches judged in order and their results concatenated; any failing batch fails the whole check. */
  function SanityOutcome(verdict: seq<QAPair> -> Option<seq<int>>, bs: seq<seq<QAPair>>): Result<seq<QAPair>>
  {
    if bs == [] then Success([])
    else
      match SanityOutcome(verdict, bs[..|bs| - 1])
      case Failure(e) => Failure(e)
      case Success(acc) =>
        match Judged(bs[|bs| - 1], verdict(bs[|bs| - 1]))
        case Failure(e) => Failure(e)
        case Success(kept) => Success(acc + kept)
  }

  /** The result of each batch, `[]` for a failing one. */
  function BatchResults(verdict: seq<QAPair> -> Option<seq<int>>, bs: seq<seq<QAPair>>): (rs: seq<seq<QAPair>>)
    ensures |rs| == |bs|
  {
    seq(|bs|, k requires 0 <= k < |bs| =>
      var o := Judged(bs[k], verdict(bs[k]));
      if o.Success? then o.value else [])
  }

  /** The check succeeds exactly when every batch reply parses; a failure is always the parse failure. */
  lemma {:induction false} SanityOutcomeSucceeds(verdict: seq<QAPair> -> Option<seq<int>>, bs: seq<seq<QAPair>>)
    ensures SanityOutcome(verdict, bs).Success? <==> forall k :: 0 <= k < |bs| ==> verdict(bs[k]).Some?
    ensures SanityOutcome(verdict, bs).Failure? ==> SanityOutcome(verdict, bs).error == MalformedClassifierReply
  {
    if bs != [] {
      var init := bs[..|bs| - 1];
      SanityOutcomeSucceeds(verdict, init);
      if SanityOutcome(verdict, init).Failure? {
        var k :| 0 <= k < |init| && verdict(init[k]).None?;
        assert bs[k] == init[k];
      } else {
        assert forall k :: 0 <= k < |init| ==> bs[k] == init[k];
      }
    }
  }

  /** A successful check returns the batch results concatenated in batch order. */
  lemma {:induction false} SanityOutcomeFlattens(verdict: seq<QAPair> -> Option<seq<int>>, bs: seq<seq<QAPair>>)
    ensures SanityOutcome(verdict, bs).Success? ==> SanityOutcome(verdict, bs).value == Flatten(BatchResults(verdict, bs))
  {
    if bs != [] {
      var init := bs[..|bs| - 1];
      SanityOutcomeFlattens(verdict, init);
      var rs := BatchResults(verdict, bs);
      assert rs == BatchResults(verdict, init) + [rs[|bs| - 1]];
      FlattenSnoc(BatchResults(verdict, init), rs[|bs| - 1]);
    }
  }

  /** A successful check returns a subsequence of the batched pairs. */
  lemma {:induction false} SanityOutcomeSubseq(verdict: seq<QAPair> -> Option<seq<int>>, bs: seq<seq<QAPair>>)
    ensures SanityOutcome(verdict, bs).Success? ==> IsSubseq(SanityOutcome(verdict, bs).value, Flatten(bs))
  {
    if bs != [] {
      var init, last := bs[..|bs| - 1], bs[|bs| - 1];
      SanityOutcomeSubseq(verdict, init);
      assert bs == init + [last];
      FlattenSnoc(init, last);
      JudgedSubseq(last, verdict(last));
      if SanityOutcome(verdict, bs).Success? {
        SubseqConcat(SanityOutcome(verdict, init).value, Flatten(init), Judged(last, verdict(last)).value, last);
      }
    }
  }

  lemma {:induction false} FailureSticks(verdict: seq<QAPair> -> Option<seq<int>>, bs: seq<seq<QAPair>>, i: nat)
    requires i <= |bs| && SanityOutcome(verdict, bs[..i]).Failure?
    ensures SanityOutcome(verdict, bs) == Failure(MalformedClassifierReply)
    decreases |bs| - i
  {
    SanityOutcomeSucceeds(verdict, bs[..i]);
    if i < |bs| {
      assert bs[..i + 1][..i] == bs[..i];
      FailureSticks(verdict, bs, i + 1);
    } else {
      assert bs[..i] == bs;
    }
  }

  /** One more successful batch extends the successful result by its kept pairs. */
  lemma SanityOutcomeSnoc(verdict: seq<QAPair> -> Option<seq<int>>, bs: seq<seq<QAPair>>, i: nat,
                          acc: seq<QAPair>, kept: seq<QAPair>)
    requires i < |bs|
    requires SanityOutcome(verdict, bs[..i]) == Success(acc)
    requires Judged(bs[i], verdict(bs[i])) == Success(kept)
    ensures SanityOutcome(verdict, bs[..i + 1]) == Success(acc + kept)
  {
    assert bs[..i + 1][..i] == bs[..i];
  }

  /** A failing batch after successful ones makes the whole check fail with its error. */
  lemma SanityOutcomeStop(verdict: seq<QAPair> -> Option<seq<int>>, bs: seq<seq<QAPair>>, i: nat, acc: seq<QAPair>)
    requires i < |bs|
    requires SanityOutcome(verdict, bs[..i]) == Success(acc)
    requires Judged(bs[i], verdict(bs[i])).Failure?
    ensures SanityOutcome(verdict, bs) == Failure(Judged(bs[i], verdict(bs[i])).error)
  {
    assert bs[..i + 1][..i] == bs[..i];
    FailureSticks(verdict, bs, i + 1);
  }

  /** `perform_sanity_check`: batch, judge every batch in order (the concurrent `gather` keeps order), flatten. */
  method PerformSanityCheck(judge: Judge, qa: seq<QAPair>) returns (r: Result<seq<QAPair>>)
    ensures r == SanityOutcome(Verdict(judge), Batches(qa))
  {
    var batches := Batches(qa);
    var results: seq<seq<QAPair>> := [];
    for i := 0 to |batches|
      invariant SanityOutcome(Verdict(judge), batches[..i]) == Success(Flatten(results))
    {
      var o := ProcessQaBatch(judge, batches[i]);
      if o.Failure? {
        SanityOutcomeStop(Verdict(judge), batches, i, Flatten(results));
        return Failure(o.error);
      }
      SanityOutcomeSnoc(Verdict(judge), batches, i, Flatten(results), o.value);
      FlattenSnoc(results, o.value);
      results := results + [o.value];
    }
    assert batches[..|batches|] == batches;
    r := Success(Flatten(results));
  }

  /** Overall: a successful check returns a subsequence of the pairs, in order; no pairs need no model call. */
  lemma SanityCheckSubseq(verdict: seq<QAPair> -> Option<seq<int>>, qa: seq<QAPair>)
    ensures SanityOutcome(verdict, Batches(qa)).Success? ==>
              && IsSubseq(SanityOutcome(verdict, Batches(qa)).value, qa)
              && |SanityOutcome(verdict, Batches(qa)).value| <= |qa|
    ensures qa == [] ==> SanityOutcome(verdict, Batches(qa)) == Success([])
  {
    SanityOutcomeSubseq(verdict, Batches(qa));
    if SanityOutcome(verdict, Batches(qa)).Success? {
      SubseqLength(SanityOutcome(verdict, Batches(qa)).value, qa);
    }
  }

  // ---------------------------------------------------------------------------
  // The workflow step

  /** What `sanity_check_step` yields for the pairs and the context it reads. */
  function SanityStep(qa: seq<QAPair>, queryClean: Option<string>, clearHistory: Option<History>,
                      modelName: string, dumps: seq<DocRecord> -> string,
                      classify: seq<Message> -> Option<seq<int>>): Result<Event>
  {
    if queryClean.None? then Failure(MissingContextKey("query_clean"))
    else if clearHistory.None? then Failure(MissingContextKey("clear_history"))
    else
      var judge := Judge(SanityFamilyAsWritten(modelName), queryClean.value, LastUserMessages(clearHistory.value), dumps, classify);
      match SanityOutcome(Verdict(judge), Batches(qa))
      case Failure(e) => Failure(e)
      case Success(kept) => Success(SanityCheckEvent(kept))
  }

  /**
   * The step fails on a query or a history that was never stored; a
   * successful step passes on a subsequence of the pairs, in order, and no
   * pairs pass on as none.
   */
  lemma SanityStepOutcome(qa: seq<QAPair>, queryClean: Option<string>, clearHistory: Option<History>,
                          modelName: string, dumps: seq<DocRecord> -> string,
                          classify: seq<Message> -> Option<seq<int>>)
    ensures var r := SanityStep(qa, queryClean, clearHistory, modelName, dumps, classify);
            && (queryClean.None? ==> r == Failure(MissingContextKey("query_clean")))
            && (queryClean.Some? && clearHistory.None? ==> r == Failure(MissingContextKey("clear_history")))
            && (r.Success? ==> r.value.SanityCheckEvent? && IsSubseq(r.value.qa, qa))
            && (queryClean.Some? && clearHistory.Some? && qa == [] ==> r == Success(SanityCheckEvent([])))
  {
    if queryClean.Some? && clearHistory.Some? {
      var judge := Judge(SanityFamilyAsWritten(modelName), queryClean.value, LastUserMessages(clearHistory.value), dumps, classify);
      SanityCheckSubseq(Verdict(judge), qa);
    }
  }

  /** `sanity_check_step`: read the query and the history, take the window, filter the pairs. */
  method SanityCheckStep(ev: Event, ctx: Context, modelName: string, dumps: seq<DocRecord> -> string,
                         classify: seq<Message> -> Option<seq<int>>) returns (out: Result<Event>)
    requires ev.DeduplicateEvent?
    ensures out == SanityStep(ev.qa, ctx.queryClean, ctx.clearHistory, modelName, dumps, classify)
  {
    var queryClean := ctx.GetQueryClean();
    if queryClean.Failure? {
      return Failure(queryClean.error);
    }
    var clearHistory := ctx.GetClearHistory();
    if clearHistory.Failure? {
      return Failure(clearHistory.error);
    }
    var previous := LastUserMessages(clearHistory.value);
    var judge := Judge(SanityFamilyAsWritten(modelName), queryClean.value, previous, dumps, classify);
    var relevant := PerformSanityCheck(judge, ev.qa);
    if relevant.Failure? {
      return Failure(relevant.error);
    }
    out := Success(SanityCheckEvent(relevant.value));
  }
}
