/**
 * The records passed between the pipeline's stages: chat messages,
 * question-answer pairs, and the events each workflow step consumes and emits.
 */
module Events {
  import opened Wrappers

  /** A chat message `{"role": ..., "content": ...}`. */
  datatype Message = Message(role: string, content: string)

  /** A `(question, answer)` tuple from the knowledge base. */
  datatype QAPair = QAPair(question: string, answer: string)

  /** A conversation history that may be `None`. */
  type History = Option<seq<Message>>

  /** Python truthiness of a history: present and non-empty. */
  predicate Truthy(h: History)
  {
    h.Some? && |h.value| > 0
  }

  /** `h or []` */
  function OrEmpty(h: History): (ms: seq<Message>)
    ensures h.Some? ==> ms == h.value
    ensures h.None? ==> ms == []
  {
    if h.Some? then h.value else []
  }

  datatype Event =
    | StartEvent(query: string, clearHistory: History)
    | PreprocessEvent(queryClean: string)
    | RetrieveEvent(qa: seq<QAPair>)
    | DeduplicateEvent(qa: seq<QAPair>)
    | SanityCheckEvent(qa: seq<QAPair>)
    | HasQAExamplesEvent(qa: seq<QAPair>)
    | StopEvent(text: string, queryClean: string)
}
