/**
 * The retrieval step: the search text built from the cleaned query and the
 * last user messages, and the mapping of search payloads to pairs.
 */
module Retrieve {
  import opened Wrappers
  import opened Text
  import opened Seqs
  import opened Events
  import opened Conversation
  import opened WorkflowContext

  /** The payload stored with a knowledge-base point. */
  type Payload = map<string, string>

  /** `(point.payload["question_clear"], point.payload["content_clear"])`, with the `KeyError`s. */
  function PointToPair(p: Payload): Result<QAPair>
  {
    if "question_clear" !in p then Failure(MissingPayloadKey("question_clear"))
    else if "content_clear" !in p then Failure(MissingPayloadKey("content_clear"))
    else Success(QAPair(p["question_clear"], p["content_clear"]))
  }

  /**
   * `process_scored_points`: one pair per point, in order; the first point
   * missing a key makes the whole call fail.
   */
  function ProcessScoredPoints(points: seq<Payload>): (r: Result<seq<QAPair>>)
    ensures r.Success? <==> forall k :: 0 <= k < |points| ==> "question_clear" in points[k] && "content_clear" in points[k]
    ensures r.Success? ==> |r.value| == |points|
    ensures r.Success? ==> forall k :: 0 <= k < |points| ==>
              r.value[k] == QAPair(points[k]["question_clear"], points[k]["content_clear"])
    ensures r.Failure? ==> r.error.MissingPayloadKey?
  {
    if points == [] then Success([])
    else
      match PointToPair(points[0])
      case Failure(e) => Failure(e)
      case Success(pair) =>
        match ProcessScoredPoints(points[1..])
        case Failure(e) => Failure(e)
        case Success(rest) => Success([pair] + rest)
  }

  /** `retrieve_similar_qa_pairs`: the search service's points for the text, as pairs. */
  function RetrieveSimilar(search: string -> seq<Payload>, text: string): Result<seq<QAPair>>
  {
    ProcessScoredPoints(search(text))
  }

  /**
   * The search text: with a non-empty history, the last two or fewer user
   * messages and then the query, joined by newlines; otherwise the query.
   */
  function ContextualQuery(clearHistory: History, queryClean: string): string
  {
    if Truthy(clearHistory) then Join("\n", Contents(LastUserMessages(clearHistory)) + [queryClean])
    else queryClean
  }

  /** The query always ends the search text, and stands alone without history. */
  lemma ContextualQueryEndsWithQuery(clearHistory: History, queryClean: string)
    ensures EndsWith(ContextualQuery(clearHistory, queryClean), queryClean)
    ensures !Truthy(clearHistory) ==> ContextualQuery(clearHistory, queryClean) == queryClean
  {
    if Truthy(clearHistory) {
      JoinEndsWith("\n", Contents(LastUserMessages(clearHistory)), queryClean);
    } else {
      EndsWithConcat("", queryClean);
      assert "" + queryClean == queryClean;
    }
  }

  /** Non-user messages never contribute: a history without user messages searches for the query alone. */
  lemma NoUserContext(clearHistory: History, queryClean: string)
    requires clearHistory.Some?
    requires forall k :: 0 <= k < |clearHistory.value| ==> clearHistory.value[k].role != "user"
    ensures ContextualQuery(clearHistory, queryClean) == queryClean
  {
    if Truthy(clearHistory) {
      NoUserMessages(clearHistory.value);
      assert Contents([]) + [queryClean] == [queryClean];
    }
  }

  /** When no line break occurs in the parts, splitting the search text at line breaks gives back the messages and the query. */
  lemma ContextualQuerySplits(clearHistory: History, queryClean: string)
    requires Truthy(clearHistory)
    requires forall k :: 0 <= k < |clearHistory.value| ==> Avoids(clearHistory.value[k].content, {'\n'})
    requires Avoids(queryClean, {'\n'})
    ensures SplitWhere(ContextualQuery(clearHistory, queryClean), {'\n'}) ==
              Contents(LastUserMessages(clearHistory)) + [queryClean]
  {
    var window := LastUserMessages(clearHistory);
    var parts := Contents(window) + [queryClean];
    LastUserMessagesWindow(clearHistory);
    SubseqMembers(window, clearHistory.value);
    WindowAvoids(window, clearHistory.value);
    assert forall k :: 0 <= k < |parts| ==> Avoids(parts[k], {'\n'});
    SplitJoin('\n', parts, {'\n'});
    assert ['\n'] == "\n";
  }

  /** Messages taken from a history whose contents avoid line breaks have contents that avoid them too. */
  lemma WindowAvoids(window: seq<Message>, ms: seq<Message>)
    requires forall m :: m in window ==> m in ms
    requires forall k :: 0 <= k < |ms| ==> Avoids(ms[k].content, {'\n'})
    ensures forall k :: 0 <= k < |window| ==> Avoids(Contents(window)[k], {'\n'})
  {
    forall k | 0 <= k < |window|
      ensures Avoids(Contents(window)[k], {'\n'})
    {
      assert window[k] in ms;
      var j :| 0 <= j < |ms| && ms[j] == window[k];
    }
  }

  /** What `retrieve_step` yields, given the stored history. */
  function RetrieveOutcome(clearHistory: Option<History>, queryClean: string, search: string -> seq<Payload>): Result<Event>
  {
    if clearHistory.None? then Failure(MissingContextKey("clear_history"))
    else
      match RetrieveSimilar(search, ContextualQuery(clearHistory.value, queryClean))
      case Failure(e) => Failure(e)
      case Success(qa) => Success(RetrieveEvent(qa))
  }

  /** `retrieve_step`: store the query in the context, build the search text, search, map the points. */
  method RetrieveStep(ev: Event, ctx: Context, search: string -> seq<Payload>) returns (out: Result<Event>)
    requires ev.PreprocessEvent?
    modifies ctx
    ensures ctx.queryClean == Some(ev.queryClean)
    ensures ctx.clearHistory == old(ctx.clearHistory)
    ensures out == RetrieveOutcome(old(ctx.clearHistory), ev.queryClean, search)
  {
    var queryClean := ev.queryClean;
    ctx.SetQueryClean(queryClean);
    var clearHistory := ctx.GetClearHistory();
    if clearHistory.Failure? {
      return Failure(clearHistory.error);
    }
    var concatenated := ContextualQuery(clearHistory.value, queryClean);
    var qa := RetrieveSimilar(search, concatenated);
    if qa.Failure? {
      return Failure(qa.error);
    }
    out := Success(RetrieveEvent(qa.value));
  }
}
