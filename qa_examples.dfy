/**
 * The branch after the relevance filter: with no pair left the run stops
 * with the fixed hand-over message, otherwise it continues to the reply.
 */
module QaExamples {
  import opened Wrappers
  import opened Events
  import opened WorkflowContext

  /** The hand-over message (two adjacent literals in the source, one string to Python); it depends on no input. */
  const FallbackMessage: string :=
    "К сожалению, у меня недостаточно информации, чтобы ответить на ваш запрос. Переключаю на оператора..."

  /** What `is_there_qa_examples_step` yields for the pairs and the stored query. */
  function QaExamplesOutcome(qa: seq<QAPair>, queryClean: Option<string>): Result<Event>
  {
    if queryClean.None? then Failure(MissingContextKey("query_clean"))
    else if |qa| == 0 then Success(StopEvent(FallbackMessage, queryClean.value))
    else Success(HasQAExamplesEvent(qa))
  }

  /**
   * Exactly one outcome: no pairs stop the run with the hand-over message
   * and the stored query; otherwise the same pairs go on to the reply.
   */
  lemma QaExamplesBranches(qa: seq<QAPair>, queryClean: string)
    ensures var out := QaExamplesOutcome(qa, Some(queryClean));
            && out.Success?
            && (out.value.StopEvent? <==> qa == [])
            && (out.value.HasQAExamplesEvent? <==> qa != [])
            && (qa == [] ==> out.value == StopEvent(FallbackMessage, queryClean))
            && (qa != [] ==> out.value.qa == qa)
  {
  }

  /** `is_there_qa_examples_step`: read the stored query, then branch on the number of pairs. */
  method IsThereQaExamplesStep(ev: Event, ctx: Context) returns (out: Result<Event>)
    requires ev.SanityCheckEvent?
    ensures out == QaExamplesOutcome(ev.qa, ctx.queryClean)
  {
    var queryClean := ctx.GetQueryClean();
    if queryClean.Failure? {
      return Failure(queryClean.error);
    }
    if |ev.qa| == 0 {
      var errorMessage := FallbackMessage;
      out := Success(StopEvent(errorMessage, queryClean.value));
    } else {
      out := Success(HasQAExamplesEvent(ev.qa));
    }
  }
}

/** The older copy of the same step, kept in the first version of the package. */
module QaExamplesLegacy {
  import opened Wrappers
  import opened Events
  import opened WorkflowContext
  import QaExamples

  const LegacyFallbackMessage: string :=
    "К сожалению, у меня недостаточно информации, чтобы ответить на ваш запрос. Переключаю на оператора..."

  function LegacyOutcome(qa: seq<QAPair>, queryClean: Option<string>): Result<Event>
  {
    if queryClean.None? then Failure(MissingContextKey("query_clean"))
    else if |qa| == 0 then Success(StopEvent(LegacyFallbackMessage, queryClean.value))
    else Success(HasQAExamplesEvent(qa))
  }

  /** The older step says the same hand-over message. */
  lemma LegacyMessageAgrees()
    ensures LegacyFallbackMessage == QaExamples.FallbackMessage
  {
  }

  /** The older step behaves as the current one on every input. */
  lemma LegacyAgrees(qa: seq<QAPair>, queryClean: Option<string>)
    ensures LegacyOutcome(qa, queryClean) == QaExamples.QaExamplesOutcome(qa, queryClean)
  {
    LegacyMessageAgrees();
  }

  /** The older `is_there_qa_examples_step`, reading `query_clean` from the context. */
  method IsThereQaExamplesStep(ev: Event, ctx: Context) returns (out: Result<Event>)
    requires ev.SanityCheckEvent?
    ensures out == LegacyOutcome(ev.qa, ctx.queryClean)
  {
    var queryClean := ctx.GetQueryClean();
    if queryClean.Failure? {
      return Failure(queryClean.error);
    }
    if |ev.qa| == 0 {
      out := Success(StopEvent(LegacyFallbackMessage, queryClean.value));
    } else {
      out := Success(HasQAExamplesEvent(ev.qa));
    }
  }
}
