/**
 * `AssistantFlow`: the steps wired by event type into a linear state
 * machine, Start → Preprocess → Retrieve → Deduplicate → SanityCheck →
 * (HasQAExamples → Reply) or Stop, over one shared context.
 */
module Workflow {
  import opened Wrappers
  import opened Events
  import opened Prompts
  import opened WorkflowContext
  import Preprocess
  import Retrieve
  import Deduplicate
  import SanityCheck
  import QaExamples
  import Reply

  /** What the run depends on but does not compute: the lemmatiser, the vector search, JSON rendering, the two chat calls and the configured model name. */
  datatype Services = Services(
    modelName: string,
    normalForm: string -> string,
    search: string -> seq<Retrieve.Payload>,
    dumps: seq<DocRecord> -> string,
    classify: seq<Message> -> Option<seq<int>>,
    complete: seq<Message> -> Result<string>)

  /** The context's two keys, as values. */
  datatype Store = Store(queryClean: Option<string>, clearHistory: Option<History>)

  /** Steps still to run after an event; a stop event ends the run. */
  function Rank(ev: Event): nat
  {
    match ev
    case StartEvent(_, _) => 6
    case PreprocessEvent(_) => 5
    case RetrieveEvent(_) => 4
    case DeduplicateEvent(_) => 3
    case SanityCheckEvent(_) => 2
    case HasQAExamplesEvent(_) => 1
    case StopEvent(_, _) => 0
  }

  /** The event types each step may emit, as declared on the step methods. */
  predicate Follows(ev: Event, next: Event)
  {
    match ev
    case StartEvent(_, _) => next.PreprocessEvent?
    case PreprocessEvent(_) => next.RetrieveEvent?
    case RetrieveEvent(_) => next.DeduplicateEvent?
    case DeduplicateEvent(_) => next.SanityCheckEvent?
    case SanityCheckEvent(_) => next.HasQAExamplesEvent? || next.StopEvent?
    case HasQAExamplesEvent(_) => next.StopEvent?
    case StopEvent(_, _) => false
  }

  /**
   * A step after preprocessing, for the event it consumes: its output and
   * the context it leaves.
   */
  function Transition(ev: Event, st: Store, s: Services): (r: (Result<Event>, Store))
    requires !ev.StartEvent? && !ev.StopEvent?
    ensures r.0.Success? ==> Follows(ev, r.0.value) && Rank(r.0.value) < Rank(ev)
  {
    match ev
    case PreprocessEvent(queryClean) =>
      (Retrieve.RetrieveOutcome(st.clearHistory, queryClean, s.search), st.(queryClean := Some(queryClean)))
    case RetrieveEvent(qa) =>
      (Success(DeduplicateEvent(Deduplicate.Dedup(qa))), st)
    case DeduplicateEvent(qa) =>
      (SanityCheck.SanityStep(qa, st.queryClean, st.clearHistory, s.modelName, s.dumps, s.classify), st)
    case SanityCheckEvent(qa) =>
      (QaExamples.QaExamplesOutcome(qa, st.queryClean), st)
    case HasQAExamplesEvent(qa) =>
      var family := Reply.ReplyFamily(s.modelName);
      (Reply.ReplyOutcome(qa, st.queryClean, st.clearHistory, family, s.dumps, s.complete),
       st.(clearHistory := Reply.HistoryAfterReply(qa, st.queryClean, st.clearHistory, family, s.dumps)))
  }

  /**
   * The result of running the steps from `ev` on: the stop event's
   * `(text, query_clean)`, or the first failure. `clean` stands for
   * `preprocess_query_text`, which the first step applies after storing the
   * start event's history; `Pipeline` fixes it.
   */
  function Finish(ev: Event, st: Store, s: Services, clean: string -> string): Result<(string, string)>
    decreases Rank(ev)
  {
    if ev.StopEvent? then Success((ev.text, ev.queryClean))
    else if ev.StartEvent? then
      Finish(PreprocessEvent(clean(ev.query)), st.(clearHistory := Some(ev.clearHistory)), s, clean)
    else
      var (out, st') := Transition(ev, st, s);
      if out.Failure? then Failure(out.error) else Finish(out.value, st', s, clean)
  }

  /** `preprocess_query_text` with the configured lemmatiser. */
  function Cleaner(s: Services): string -> string
  {
    query => Preprocess.CleanQuery(query, s.normalForm)
  }

  /** A whole run: a start event over an empty context. */
  function Pipeline(query: string, clearHistory: History, s: Services): Result<(string, string)>
  {
    Finish(StartEvent(query, clearHistory), Store(None, None), s, Cleaner(s))
  }

  // ---------------------------------------------------------------------------
  // Properties of the wiring

  /** The deduplicate step reads nothing from the context and writes nothing to it. */
  lemma DeduplicateIgnoresStore(qa: seq<QAPair>, st1: Store, st2: Store, s: Services)
    ensures Transition(RetrieveEvent(qa), st1, s).0 == Transition(RetrieveEvent(qa), st2, s).0
    ensures Transition(RetrieveEvent(qa), st1, s).1 == st1
  {
  }

  /** Every stop event pairs its text with the query stored in the context. */
  lemma StopCarriesStoredQuery(ev: Event, st: Store, s: Services)
    requires !ev.StartEvent? && !ev.StopEvent?
    ensures var out := Transition(ev, st, s).0;
            out.Success? && out.value.StopEvent? ==> st.queryClean == Some(out.value.queryClean)
  {
  }

  /** The reply step is reached only from the examples check, and only with a non-empty list, passed on unchanged. */
  lemma ReplyNeedsExamples(ev: Event, st: Store, s: Services)
    requires !ev.StartEvent? && !ev.StopEvent?
    ensures var out := Transition(ev, st, s).0;
            out.Success? && out.value.HasQAExamplesEvent? ==>
              ev.SanityCheckEvent? && ev.qa != [] && out.value.qa == ev.qa
  {
  }

  /**
   * Retrieval leaves the start event's history, unchanged, and the cleaned
   * query in the context, which is what every later step reads.
   */
  lemma StoreAfterRetrieval(queryClean: string, clearHistory: History, s: Services)
    ensures Transition(PreprocessEvent(queryClean), Store(None, Some(clearHistory)), s).1 == Store(Some(queryClean), Some(clearHistory))
  {
  }

  /** From the examples check on, with the query and history stored. */
  lemma {:induction false} FinishFromExamplesCheck(kept: seq<QAPair>, q: string, h: History, s: Services, clean: string -> string)
    ensures kept == [] ==> Finish(SanityCheckEvent(kept), Store(Some(q), Some(h)), s, clean) == Success((QaExamples.FallbackMessage, q))
    ensures kept != [] ==>
              var prompt := Reply.ReplyPrompt(Reply.ReplyFamily(s.modelName), q, kept, OrEmpty(h), s.dumps);
              Finish(SanityCheckEvent(kept), Store(Some(q), Some(h)), s, clean) ==
                match s.complete(prompt.messages)
                case Failure(e) => Failure(e)
                case Success(text) => Success((text, q))
  {
    var st := Store(Some(q), Some(h));
    QaExamples.QaExamplesBranches(kept, q);
    if kept != [] {
      var (o, st') := Transition(HasQAExamplesEvent(kept), st, s);
      assert Finish(SanityCheckEvent(kept), st, s, clean) == Finish(HasQAExamplesEvent(kept), st, s, clean);
    }
  }

  /**
   * A whole run, stage by stage: the search text built from the stored
   * history and the cleaned query, the pairs found, deduplicated, filtered for
   * relevance, and then either the fixed handoff message or the model's reply.
   * A failure at any stage ends the run with that failure.
   */
  lemma {:induction false} FinishFromStart(query: string, h: History, s: Services, clean: string -> string)
    ensures var q := clean(query);
            var r := Finish(StartEvent(query, h), Store(None, None), s, clean);
            var found := Retrieve.RetrieveSimilar(s.search, Retrieve.ContextualQuery(h, q));
            && (found.Failure? ==> r == Failure(found.error))
            && (found.Success? ==>
                  var relevant := SanityCheck.SanityStep(Deduplicate.Dedup(found.value), Some(q), Some(h), s.modelName, s.dumps, s.classify);
                  && (relevant.Failure? ==> r == Failure(relevant.error))
                  && (relevant.Success? ==> r == Finish(relevant.value, Store(Some(q), Some(h)), s, clean)))
  {
    var q := clean(query);
    var st := Store(Some(q), Some(h));
    var found := Retrieve.RetrieveSimilar(s.search, Retrieve.ContextualQuery(h, q));
    assert Finish(StartEvent(query, h), Store(None, None), s, clean) == Finish(PreprocessEvent(q), Store(None, Some(h)), s, clean);
    if found.Success? {
      assert Finish(PreprocessEvent(q), Store(None, Some(h)), s, clean) == Finish(RetrieveEvent(found.value), st, s, clean);
      assert Finish(RetrieveEvent(found.value), st, s, clean) == Finish(DeduplicateEvent(Deduplicate.Dedup(found.value)), st, s, clean);
    }
  }

  /**
   * What a run promises: its second component is always the cleaned query;
   * with no relevant pair left it answers with the handoff message; otherwise
   * its text is the completion of the reply prompt over the relevant pairs.
   */
  lemma PipelineOutcome(query: string, h: History, s: Services, clean: string -> string)
    ensures var q := clean(query);
            var r := Finish(StartEvent(query, h), Store(None, None), s, clean);
            var found := Retrieve.RetrieveSimilar(s.search, Retrieve.ContextualQuery(h, q));
            var relevant := if found.Success? then SanityCheck.SanityStep(Deduplicate.Dedup(found.value), Some(q), Some(h), s.modelName, s.dumps, s.classify)
                            else Failure(found.error);
            && (r.Success? ==> r.value.1 == q && relevant.Success?)
            && (relevant == Success(SanityCheckEvent([])) ==> r == Success((QaExamples.FallbackMessage, q)))
            && (relevant.Success? && relevant.value.qa != [] ==>
                  var prompt := Reply.ReplyPrompt(Reply.ReplyFamily(s.modelName), q, relevant.value.qa, OrEmpty(h), s.dumps);
                  (r.Success? <==> s.complete(prompt.messages).Success?)
                  && (r.Success? ==> s.complete(prompt.messages) == Success(r.value.0)))
  {
    var q := clean(query);
    FinishFromStart(query, h, s, clean);
    var found := Retrieve.RetrieveSimilar(s.search, Retrieve.ContextualQuery(h, q));
    if found.Success? {
      var relevant := SanityCheck.SanityStep(Deduplicate.Dedup(found.value), Some(q), Some(h), s.modelName, s.dumps, s.classify);
      if relevant.Success? {
        assert Follows(DeduplicateEvent(Deduplicate.Dedup(found.value)), relevant.value);
        FinishFromExamplesCheck(relevant.value.qa, q, h, s, clean);
      }
    }
  }

  /** One step of a run, unfolded. */
  lemma FinishStep(ev: Event, st: Store, s: Services, clean: string -> string)
    requires !ev.StartEvent? && !ev.StopEvent?
    ensures var (out, st') := Transition(ev, st, s);
            Finish(ev, st, s, clean) == if out.Failure? then Failure(out.error) else Finish(out.value, st', s, clean)
  {
  }

  /** The first step of a run, unfolded. */
  lemma FinishFirstStep(query: string, clearHistory: History, st: Store, s: Services, clean: string -> string)
    ensures Finish(StartEvent(query, clearHistory), st, s, clean) ==
              Finish(PreprocessEvent(clean(query)), st.(clearHistory := Some(clearHistory)), s, clean)
  {
  }

  /** `AssistantFlow.preprocess`: store the start event's history, then clean the query. */
  method PreprocessStage(ev: Event, ctx: Context, s: Services) returns (out: Event)
    requires ev.StartEvent?
    modifies ctx
    ensures out == PreprocessEvent(Cleaner(s)(ev.query))
    ensures ctx.clearHistory == Some(ev.clearHistory) && ctx.queryClean == old(ctx.queryClean)
  {
    ctx.SetClearHistory(ev.clearHistory);
    out := Preprocess.PreprocessStep(ev, s.normalForm);
  }

  /** Dispatch an event after preprocessing to the step that accepts it. */
  method Step(ev: Event, ctx: Context, s: Services) returns (out: Result<Event>)
    requires !ev.StartEvent? && !ev.StopEvent?
    modifies ctx
    ensures (out, Store(ctx.queryClean, ctx.clearHistory)) == Transition(ev, old(Store(ctx.queryClean, ctx.clearHistory)), s)
  {
    match ev
    case PreprocessEvent(_) =>
      out := Retrieve.RetrieveStep(ev, ctx, s.search);
    case RetrieveEvent(_) =>
      var next, _ := Deduplicate.DeduplicateStep(ev);
      out := Success(next);
    case DeduplicateEvent(_) =>
      out := SanityCheck.SanityCheckStep(ev, ctx, s.modelName, s.dumps, s.classify);
    case SanityCheckEvent(_) =>
      out := QaExamples.IsThereQaExamplesStep(ev, ctx);
    case HasQAExamplesEvent(_) =>
      out := Reply.ReplyStep(ev, ctx, s.modelName, s.dumps, s.complete);
  }

  /** The event loop after preprocessing: step until a stop event or a failure. */
  method RunFrom(ev0: Event, ctx: Context, s: Services, ghost clean: string -> string) returns (r: Result<(string, string)>)
    requires !ev0.StartEvent?
    modifies ctx
    ensures r == Finish(ev0, old(Store(ctx.queryClean, ctx.clearHistory)), s, clean)
  {
    var ev := ev0;
    while !ev.StopEvent?
      invariant !ev.StartEvent?
      invariant Finish(ev, Store(ctx.queryClean, ctx.clearHistory), s, clean) == Finish(ev0, old(Store(ctx.queryClean, ctx.clearHistory)), s, clean)
      decreases Rank(ev)
    {
      FinishStep(ev, Store(ctx.queryClean, ctx.clearHistory), s, clean);
      var next := Step(ev, ctx, s);
      if next.Failure? {
        return Failure(next.error);
      }
      ev := next.value;
    }
    r := Success((ev.text, ev.queryClean));
  }

  /** `AssistantFlow().run(query=..., clear_history=...)` over a fresh context. */
  method Run(query: string, clearHistory: History, s: Services) returns (r: Result<(string, string)>)
    ensures r == Pipeline(query, clearHistory, s)
  {
    var ctx := new Context();
    var ev := StartEvent(query, clearHistory);
    ev := PreprocessStage(ev, ctx, s);
    FinishFirstStep(query, clearHistory, Store(None, None), s, Cleaner(s));
    r := RunFrom(ev, ctx, s, Cleaner(s));
  }
}
