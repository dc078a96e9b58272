/**
 * The HTTP handlers' own logic: the conversation bookkeeping of `/chat` and
 * the dataset-item rules of `/set_score`. The workflow run and the
 * dataset client are parameters.
 */
module Api {
  import opened Wrappers
  import opened Text
  import opened Seqs
  import opened Events
  import opened Conversation

  /** The `/chat` request body; the tracing ids are left out. */
  datatype ChatRequest = ChatRequest(message: string, history: History, clearHistory: History)

  datatype ChatResponse = ChatResponse(response: string, clearQuery: string, history: seq<Message>, clearHistory: seq<Message>)

  /** A handler's result: the response body, or an `HTTPException`. */
  datatype ChatOutcome = Ok(body: ChatResponse) | HttpException(statusCode: int, detail: string)

  /**
   * `process_chat_message`: run the workflow on the message and a copy of
   * the cleaned history, then append this exchange to both histories, the raw
   * message to the shown one and the cleaned query to the cleaned one.
   * `workflow` stands for `run_workflow_with_tracing`.
   */
  method ProcessChatMessage(request: ChatRequest, workflow: (string, seq<Message>) -> Result<(string, string)>)
    returns (out: ChatOutcome)
    ensures var result := workflow(request.message, OrEmpty(request.clearHistory));
            && (result.Failure? ==> out == HttpException(500, ErrorText(result.error)))
            && (result.Success? ==>
                  var (aiResponse, cleanedQuery) := result.value;
                  out == Ok(ChatResponse(aiResponse, cleanedQuery,
                                         OrEmpty(request.history) + [Message("user", request.message), Message("assistant", aiResponse)],
                                         OrEmpty(request.clearHistory) + [Message("user", cleanedQuery), Message("assistant", aiResponse)])))
  {
    var processedClearHistory: seq<Message> := [];
    if Truthy(request.clearHistory) {
      processedClearHistory := request.clearHistory.value;
    }
    assert processedClearHistory == OrEmpty(request.clearHistory);
    var result := workflow(request.message, processedClearHistory);
    if result.Failure? {
      return HttpException(500, ErrorText(result.error));
    }
    var (aiResponse, cleanedQuery) := result.value;
    var updatedHistory: seq<Message> := [];
    if Truthy(request.history) {
      updatedHistory := request.history.value;
    }
    updatedHistory := updatedHistory + [Message("user", request.message)];
    updatedHistory := updatedHistory + [Message("assistant", aiResponse)];
    processedClearHistory := processedClearHistory + [Message("user", cleanedQuery)];
    processedClearHistory := processedClearHistory + [Message("assistant", aiResponse)];
    out := Ok(ChatResponse(aiResponse, cleanedQuery, updatedHistory, processedClearHistory));
  }

  /**
   * The cleaned history the handler returns is what the client sends next
   * time: its user messages are the earlier ones and this turn's cleaned
   * query, never the raw message, so the next turn's context window ends with
   * this turn's cleaned query.
   */
  lemma NextWindowEndsWithCleanedQuery(clearHistory: seq<Message>, cleanedQuery: string, aiResponse: string)
    ensures var next := clearHistory + [Message("user", cleanedQuery), Message("assistant", aiResponse)];
            && UserMessages(next) == UserMessages(clearHistory) + [Message("user", cleanedQuery)]
            && LastUserMessages(Some(next)) == LastN(UserMessages(clearHistory) + [Message("user", cleanedQuery)], 2)
            && LastUserMessages(Some(next))[|LastUserMessages(Some(next))| - 1] == Message("user", cleanedQuery)
  {
    var next := clearHistory + [Message("user", cleanedQuery), Message("assistant", aiResponse)];
    var mid := clearHistory + [Message("user", cleanedQuery)];
    assert next[..|next| - 1] == mid;
    assert mid[..|mid| - 1] == clearHistory;
    assert UserMessages(next) == UserMessages(mid);
  }

  // ---------------------------------------------------------------------------
  // `/set_score`

  /** The `/set_score` request body. */
  datatype ScoreRequest = ScoreRequest(question: string, answer: string, userLiked: bool,
                                       expectedOutput: Option<string>, comment: Option<string>)

  /** A metadata value: the model name and the comment are text, `user_liked` a flag. */
  datatype MetaValue = MetaText(text: string) | MetaFlag(flag: bool)

  /** The arguments of `create_dataset_item`. */
  datatype DatasetItem = DatasetItem(datasetName: string, input: string, expectedOutput: Option<string>,
                                     metadata: map<string, MetaValue>)

  datatype ScoreResponse = ScoreResponse(success: bool, message: Option<string>, error: Option<string>)

  /** Python truthiness of an optional string. */
  predicate Given(s: Option<string>)
  {
    s.Some? && |s.value| > 0
  }

  /** The answer if the user liked it; else the user's suggestion if it is not blank; else nothing. */
  function ExpectedOutput(request: ScoreRequest): (r: Option<string>)
  {
    if request.userLiked then Some(request.answer)
    else if Given(request.expectedOutput) && Strip(request.expectedOutput.value) != "" then request.expectedOutput
    else None
  }

  /**
   * The three cases of the expected output: a liked answer becomes the
   * target; a disliked one is replaced by the suggestion exactly when that
   * has a non-whitespace character; a blank suggestion leaves no target.
   */
  lemma ExpectedOutputCases(request: ScoreRequest)
    ensures request.userLiked ==> ExpectedOutput(request) == Some(request.answer)
    ensures !request.userLiked ==>
              (ExpectedOutput(request).Some? <==>
                 request.expectedOutput.Some? && exists k :: 0 <= k < |request.expectedOutput.value| && !IsSpace(request.expectedOutput.value[k]))
    ensures ExpectedOutput(request).Some? && !request.userLiked ==> ExpectedOutput(request) == request.expectedOutput
  {
  }

  /** The metadata dict: the model name and the flag always, the comment only when it is non-empty. */
  function FeedbackMetadata(request: ScoreRequest, modelName: string): (m: map<string, MetaValue>)
    ensures m.Keys == {"llm_model_name", "user_liked"} + (if Given(request.comment) then {"comment"} else {})
    ensures m["llm_model_name"] == MetaText(modelName) && m["user_liked"] == MetaFlag(request.userLiked)
    ensures "comment" in m ==> m["comment"] == MetaText(request.comment.value)
  {
    var m := map["llm_model_name" := MetaText(modelName), "user_liked" := MetaFlag(request.userLiked)];
    if Given(request.comment) then m["comment" := MetaText(request.comment.value)] else m
  }

  /**
   * `submit_user_feedback`: build the metadata, choose the expected output,
   * create the item in the `qa` dataset. A failure of the client is reported
   * in the response, not raised. `createItem` stands for the dataset client
   * and yields the exception text when it raises.
   */
  method SubmitUserFeedback(request: ScoreRequest, modelName: string, createItem: DatasetItem -> Option<string>)
    returns (response: ScoreResponse)
    ensures var item := DatasetItem("qa", request.question, ExpectedOutput(request), FeedbackMetadata(request, modelName));
            && (createItem(item).None? ==> response == ScoreResponse(true, Some("Dataset item created successfully"), None))
            && (createItem(item).Some? ==> response == ScoreResponse(false, None, createItem(item)))
  {
    var feedbackMetadata := map["llm_model_name" := MetaText(modelName), "user_liked" := MetaFlag(request.userLiked)];
    if Given(request.comment) {
      feedbackMetadata := feedbackMetadata["comment" := MetaText(request.comment.value)];
    }
    var expectedOutput: Option<string> := None;
    if request.userLiked {
      expectedOutput := Some(request.answer);
    } else if Given(request.expectedOutput) && Strip(request.expectedOutput.value) != "" {
      expectedOutput := request.expectedOutput;
    }
    var raised := createItem(DatasetItem("qa", request.question, expectedOutput, feedbackMetadata));
    if raised.Some? {
      return ScoreResponse(false, None, raised);
    }
    response := ScoreResponse(true, Some("Dataset item created successfully"), None);
  }
}
