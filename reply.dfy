/**
 * The reply step: the message list sent to the chat model for each prompt
 * format, and the `(text, query_clean)` result. The completion itself is a
 * parameter.
 */
module Reply {
  import opened Wrappers
  import opened Text
  import opened Events
  import opened Prompts
  import opened WorkflowContext

  /** The answering instructions. */
  const ReplySystemPrompt: string :=
    "Ты помощник, который дает ответы на основе предоставленных примеров вопросов и ответов. "
    + "Используй предоставленные вопросы и ответы как образец стиля и уровня детализации. "
    + "Обращай внимание на прошлые сообщения для ответа на запрос пользователя. "
    + "Не задавай уточняющих вопросов. "
    + "Если примеры вопросов и ответов не содержат релевантной для запроса информации, "
    + "не придумывай ответ, а дай знать пользователю."

  /** The branch the reply step takes for a model name. */
  function ReplyFamily(modelName: string): ModelFamily
  {
    if modelName == VikhrModelName then Vikhr
    else if modelName == GemmaModelName then Gemma
    else OtherModel
  }

  const ExamplesHeading: string := "Примеры вопросов и ответов:\n"
  const QueryHeading: string := "\n\nЗапрос пользователя: "

  /** `f"Примеры вопросов и ответов:\n{examples_text}\n\nЗапрос пользователя: {query}"` */
  function WithExamples(examplesText: string, query: string): string
  {
    ExamplesHeading + examplesText + QueryHeading + query
  }

  /** `f"Пример {idx+1}:..."` over the examples: numbered from 1. */
  function ExamplesText(qa: seq<QAPair>): string
  {
    Numbered("Пример", 1, qa)
  }

  /**
   * The message list, and the history as it stands afterwards: the Gemma
   * format rewrites the first message in place, and when that message comes
   * from the history the caller's history changes with it.
   */
  datatype Prompt = Prompt(messages: seq<Message>, historyAfter: seq<Message>)

  /** `f"{system_prompt}\n\n{content}"` written into a message. */
  function Prefixed(m: Message): Message
  {
    Message(m.role, ReplySystemPrompt + "\n\n" + m.content)
  }

  function ReplyPrompt(family: ModelFamily, queryClean: string, qa: seq<QAPair>, history: seq<Message>,
                       dumps: seq<DocRecord> -> string): Prompt
  {
    match family
    case Vikhr =>
      Prompt([Message("system", ReplySystemPrompt)] + history
             + [Message("documents", dumps(DocRecords(qa, "question", "answer"))), Message("user", queryClean)],
             history)
    case Gemma =>
      var withLast := history + [Message("user", WithExamples(ExamplesText(qa), queryClean))];
      var messages := withLast[0 := Prefixed(withLast[0])];
      Prompt(messages, if history == [] then [] else history[0 := messages[0]])
    case OtherModel =>
      Prompt([Message("system", ReplySystemPrompt)] + history
             + [Message("user", WithExamples(ExamplesText(qa), queryClean))],
             history)
  }

  /** Default format: system message, the history, then the examples and the query as one user message. */
  lemma DefaultPromptShape(queryClean: string, qa: seq<QAPair>, history: seq<Message>, dumps: seq<DocRecord> -> string)
    ensures var p := ReplyPrompt(OtherModel, queryClean, qa, history, dumps);
            && |p.messages| == |history| + 2
            && p.messages[0] == Message("system", ReplySystemPrompt)
            && p.messages[1..|history| + 1] == history
            && p.messages[|history| + 1] == Message("user", WithExamples(ExamplesText(qa), queryClean))
            && p.historyAfter == history
  {
  }

  /** Vikhr format: system message, the history, the documents with ids `0 .. n-1`, then the bare query. */
  lemma VikhrPromptShape(queryClean: string, qa: seq<QAPair>, history: seq<Message>, dumps: seq<DocRecord> -> string)
    ensures var p := ReplyPrompt(Vikhr, queryClean, qa, history, dumps);
            && |p.messages| == |history| + 3
            && p.messages[0] == Message("system", ReplySystemPrompt)
            && p.messages[1..|history| + 1] == history
            && p.messages[|history| + 1] == Message("documents", dumps(DocRecords(qa, "question", "answer")))
            && p.messages[|history| + 2] == Message("user", queryClean)
            && p.historyAfter == history
  {
  }

  /**
   * Gemma format: no system message; the instructions open the first
   * message and the examples and query close the last. With an empty history
   * both are the one user message; otherwise the first history message is
   * changed for the caller too.
   */
  lemma GemmaPromptShape(queryClean: string, qa: seq<QAPair>, history: seq<Message>, dumps: seq<DocRecord> -> string)
    ensures var p := ReplyPrompt(Gemma, queryClean, qa, history, dumps);
            var last := WithExamples(ExamplesText(qa), queryClean);
            && |p.messages| == |history| + 1
            && (forall k :: 0 <= k < |p.messages| ==> p.messages[k].role != "system" || (k < |history| && history[k].role == "system"))
            && (history == [] ==> p.messages == [Message("user", ReplySystemPrompt + "\n\n" + last)] && p.historyAfter == [])
            && (history != [] ==>
                  && p.messages[0] == Message(history[0].role, ReplySystemPrompt + "\n\n" + history[0].content)
                  && p.messages[1..|history|] == history[1..]
                  && p.messages[|history|] == Message("user", last)
                  && p.historyAfter == p.messages[..|history|])
  {
    var p := ReplyPrompt(Gemma, queryClean, qa, history, dumps);
    if history != [] {
      assert p.messages[..|history|] == history[0 := p.messages[0]];
    }
  }

  /**
   * `generate_llm_response`: a `None` history counts as empty; the message
   * list is built branch by branch and handed to the completion service.
   */
  method GenerateLlmResponse(modelName: string, queryClean: string, qa: seq<QAPair>, conversationHistory: History,
                             dumps: seq<DocRecord> -> string, complete: seq<Message> -> Result<string>)
    returns (response: Result<string>, historyAfter: seq<Message>)
    ensures var p := ReplyPrompt(ReplyFamily(modelName), queryClean, qa, OrEmpty(conversationHistory), dumps);
            response == complete(p.messages) && historyAfter == p.historyAfter
  {
    var history: seq<Message>;
    if conversationHistory.None? {
      history := [];
    } else {
      history := conversationHistory.value;
    }
    var messages: seq<Message>;
    historyAfter := history;
    if modelName == VikhrModelName {
      var documents := BuildDocRecords(qa, "question", "answer");
      messages := [Message("system", ReplySystemPrompt)];
      messages := messages + history;
      messages := messages + [Message("documents", dumps(documents)), Message("user", queryClean)];
    } else if modelName == GemmaModelName {
      var examplesText := RenderNumbered("Пример", 1, qa);
      messages := history + [Message("user", queryClean)];
      var n := |messages| - 1;
      messages := messages[n := Message(messages[n].role, WithExamples(examplesText, messages[n].content))];
      assert messages == history + [Message("user", WithExamples(ExamplesText(qa), queryClean))];
      messages := messages[0 := Prefixed(messages[0])];
      if history != [] {
        historyAfter := history[0 := messages[0]];
      }
    } else {
      var examplesText := RenderNumbered("Пример", 1, qa);
      messages := [Message("system", ReplySystemPrompt)];
      messages := messages + history;
      messages := messages + [Message("user", WithExamples(examplesText, queryClean))];
    }
    response := complete(messages);
  }

  /** What `reply_step` yields: the generated text paired with the stored query. */
  function ReplyOutcome(qa: seq<QAPair>, queryClean: Option<string>, clearHistory: Option<History>,
                        family: ModelFamily, dumps: seq<DocRecord> -> string,
                        complete: seq<Message> -> Result<string>): Result<Event>
  {
    if queryClean.None? then Failure(MissingContextKey("query_clean"))
    else if clearHistory.None? then Failure(MissingContextKey("clear_history"))
    else
      var p := ReplyPrompt(family, queryClean.value, qa, OrEmpty(clearHistory.value), dumps);
      match complete(p.messages)
      case Failure(e) => Failure(e)
      case Success(text) => Success(StopEvent(text, queryClean.value))
  }

  /**
   * The stored history once `reply_step` has run: the history the prompt
   * leaves behind when one was stored, the store unchanged otherwise.
   */
  function HistoryAfterReply(qa: seq<QAPair>, queryClean: Option<string>, clearHistory: Option<History>,
                             family: ModelFamily, dumps: seq<DocRecord> -> string): Option<History>
  {
    if queryClean.Some? && clearHistory.Some? && clearHistory.value.Some? then
      Some(Some(ReplyPrompt(family, queryClean.value, qa, clearHistory.value.value, dumps).historyAfter))
    else clearHistory
  }

  /**
   * Only the Gemma format changes the stored history, and only its first
   * message, which gains the instructions in front.
   */
  lemma HistoryAfterReplyChanges(qa: seq<QAPair>, queryClean: Option<string>, clearHistory: Option<History>,
                                 family: ModelFamily, dumps: seq<DocRecord> -> string)
    ensures family != Gemma ==> HistoryAfterReply(qa, queryClean, clearHistory, family, dumps) == clearHistory
    ensures var after := HistoryAfterReply(qa, queryClean, clearHistory, family, dumps);
            family == Gemma && queryClean.Some? && clearHistory.Some? && clearHistory.value.Some? ==>
              && after.Some? && after.value.Some?
              && |after.value.value| == |clearHistory.value.value|
              && (clearHistory.value.value != [] ==>
                    && after.value.value[0] == Prefixed(clearHistory.value.value[0])
                    && after.value.value[1..] == clearHistory.value.value[1..])
  {
    if family == Gemma && queryClean.Some? && clearHistory.Some? && clearHistory.value.Some? {
      GemmaPromptShape(queryClean.value, qa, clearHistory.value.value, dumps);
    }
  }

  /**
   * `reply_step`: read the query and the history, generate, and stop with
   * `(response, query_clean)`. The stored history takes the in-place change
   * of the Gemma format.
   */
  method ReplyStep(ev: Event, ctx: Context, modelName: string, dumps: seq<DocRecord> -> string,
                   complete: seq<Message> -> Result<string>) returns (out: Result<Event>)
    requires ev.HasQAExamplesEvent?
    modifies ctx
    ensures out == ReplyOutcome(ev.qa, old(ctx.queryClean), old(ctx.clearHistory), ReplyFamily(modelName), dumps, complete)
    ensures ctx.queryClean == old(ctx.queryClean)
    ensures ctx.clearHistory == HistoryAfterReply(ev.qa, old(ctx.queryClean), old(ctx.clearHistory), ReplyFamily(modelName), dumps)
  {
    var queryClean := ctx.GetQueryClean();
    if queryClean.Failure? {
      return Failure(queryClean.error);
    }
    var conversationHistory := ctx.GetClearHistory();
    if conversationHistory.Failure? {
      return Failure(conversationHistory.error);
    }
    var response, historyAfter := GenerateLlmResponse(modelName, queryClean.value, ev.qa, conversationHistory.value, dumps, complete);
    if conversationHistory.value.Some? {
      ctx.SetClearHistory(Some(historyAfter));
    }
    if response.Failure? {
      return Failure(response.error);
    }
    out := Success(StopEvent(response.value, queryClean.value));
  }
}
