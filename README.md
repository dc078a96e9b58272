# X5 technical-support assistant: the query pipeline in Dafny

This project models the core of the X5 technical-support assistant, a
retrieval-augmented chat helper for HR and IT questions, and proves
properties of that model. It covers:

- **Query normaliser** (`preprocess_query_text`). It lower-cases and strips
  the query. It masks e-mails, links and the phone placeholder, and deletes
  personnel and ticket numbers. It expands glossary abbreviations at
  whole-word positions and cuts the text into tokens. Finally it drops every
  token whose lemma is a greeting, polite word, self-introduction, question
  word, request verb, profanity or role word.
- **Data-script twin** (`preprocess` of `process_data_final.py`). It is the
  same pipeline, but its glossary literal repeats four keys. The per-cell
  cleaning of the two dataset scripts is modelled too, and so is the
  `clear_spaces_inside` whitespace normaliser, which all of them share.
- **Workflow stages** of `AssistantFlow`:
  - preprocess
  - retrieve: the search text is built from the last two user messages and
    the cleaned query
  - deduplicate: the first pair of each answer is kept
  - relevance filter: batches of ten are judged by a classifier, and its
    scores are repaired to the batch length
  - examples check: the fixed handoff message or continue
  - reply: one message-list format per model family
- **Wiring**: the stage order is a state machine over events, with the
  shared context that the steps read and write.
- **HTTP handlers**: the history bookkeeping of `/chat` and the dataset-item
  rules of `/set_score`.
- **Formatting** in `process_context` of the evaluation script.

External services are parameters of the model:

| service | parameter |
|---|---|
| the lemmatiser (`pymorphy3`) | `normalForm` |
| the vector search | `search` |
| the relevance classifier | `classify` |
| the reply model | `complete` |
| `json.dumps` | `dumps` |
| the traced workflow call | `workflow` |
| the Langfuse dataset client | `createItem` |

They appear as functions, so every property holds whatever they return.

The modules follow the source. Some modules are shared helpers:

- `Text`: `split`, `strip`, `join`, `lower`, `re.split` and `str(n)`
- `Seqs`: subsequences and flattening
- `Patterns`: the regular expressions and `re.sub`
- `Glossary`: whole-word expansion and Python dictionary-literal semantics
- `Normaliser`: the pipeline both normalisers share
- `Events`, `Conversation` and `WorkflowContext`: the records, the history
  window and the step context

Stateful code is imperative Dafny:

- the context is a class whose fields the steps assign
- the loops of the normaliser, deduplication, batch processing, prompt
  building and the workflow driver are `while`/`for` loops with invariants

Each of these methods is proved equal to a specification function, and the
properties are proved about that function.

## Model

| member | source | states |
|---|---|---|
| Text.NormalizeWhitespace | src/ai/workflow_steps/preprocess.py:21-32 | the result has no leading, trailing or repeated whitespace, and its whitespace-split words are exactly those of the input |
| Text.NormalizeWhitespaceIdempotent | scripts/data_processing/process_data_final.py:29-34 | `clear_spaces_inside` applied twice equals applying it once |
| Text.NormalizeWhitespaceUnique | scripts/data_processing/process_data.py:21-24 | any single-spaced string with the input's words is the result, so the result is determined by the word list alone |
| Text.JoinWords | src/ai/workflow_steps/preprocess.py:191 | joining non-empty, space-free tokens with one space gives a single-spaced string whose split is the tokens again |
| Text.LowerIsLower | src/ai/workflow_steps/preprocess.py:174 | lower-cased text is lower case, so no token can hold an upper-case letter |
| Text.SplitJoin | src/ai/workflow_steps/retrieve.py:83 | splitting `"\n".join(parts)` at line breaks gives the parts back when none contains a line break |
| Text.ParseNatToString | src/ai/workflow_steps/sanity_check.py:97 | the decimal rendering of a count reads back as that count |
| Patterns.MatchLength | src/ai/workflow_steps/preprocess.py:87-94 | a match stays inside the text, and a literal pattern matches exactly where the literal occurs |
| Patterns.DigitsMatchAnywhere | src/ai/workflow_steps/preprocess.py:95-97 | `<prefix>\d+` matches wherever the prefix is followed by a digit, with no word boundary, and `re.sub` then replaces the prefix together with the whole digit run |
| Patterns.SubWithoutMatch | src/ai/workflow_steps/preprocess.py:92-97 | a pattern that matches nowhere leaves the text unchanged |
| Patterns.SubWhole | scripts/data_processing/process_data.py:37 | a pattern matching the whole text replaces it by the placeholder |
| Patterns.CollapseSpacesNoop | src/ai/workflow_steps/preprocess.py:192 | `re.sub(r'\s+', ' ', s)` is the identity on a single-spaced string |
| Glossary.LowerKeepsWordChars | src/ai/workflow_steps/preprocess.py:170 | lower-casing keeps the word/non-word class of a character, so case-blind matching sees the same boundaries |
| Glossary.SubWordOnWord | src/ai/workflow_steps/preprocess.py:168-170 | on one run of word characters an abbreviation is replaced exactly when it is the whole run, ignoring case |
| Glossary.ExpandsWholeWord | src/ai/workflow_steps/preprocess.py:102 | `лк` and `ЛК` standing alone become `личный кабинет` |
| Glossary.KeepsInsideWord | src/ai/workflow_steps/preprocess.py:168-170 | `лк` inside `блкй` is not replaced |
| Glossary.SubWordFromWithout | src/ai/workflow_steps/preprocess.py:168-170 | from any position on, a text without the abbreviation as a whole word is copied unchanged |
| Glossary.SubWordWithout | src/ai/workflow_steps/preprocess.py:168-170 | a text without the abbreviation as a whole word is unchanged |
| Glossary.ExpandSplit | src/ai/workflow_steps/preprocess.py:168-170 | the expansion is a left fold over the entries in dictionary order: the first `n` entries, then the rest |
| Glossary.ExpandWithout | src/ai/workflow_steps/preprocess.py:168-170 | a text containing no abbreviation as a whole word comes out unchanged |
| Glossary.ExpandAgree | scripts/data_processing/process_data_final.py:147-149 | two glossaries that differ only in one entry's full form agree on every text in which that abbreviation does not stand as a whole word when its turn comes |
| Glossary.Keys | scripts/data_processing/process_data_final.py:147 | the key list has one key per entry, in entry order |
| Glossary.KeysLookup | scripts/data_processing/process_data_final.py:147-149 | a lookup succeeds exactly for the keys of the dictionary |
| Glossary.LookupDistinct | scripts/data_processing/process_data_final.py:147-149 | with distinct keys, each entry's key looks up its own full form |
| Glossary.LookupBefore | scripts/data_processing/process_data_final.py:78-145 | entries after the first one for a key do not change its lookup when they have other keys |
| Glossary.LookupAppend | scripts/data_processing/process_data_final.py:78-145 | in a concatenation the later part's value wins |
| Glossary.InsertProperties | scripts/data_processing/process_data_final.py:78-145 | `d[k] = v` keeps keys distinct, appends a new key at the end, keeps an existing key's position, and changes only that key's value |
| Glossary.LookupAfterUpdate | scripts/data_processing/process_data_final.py:78-145 | overwriting the entry for a present key gives the new value for that key and the old value for the others |
| Glossary.LookupAfterUpdateRest | scripts/data_processing/process_data_final.py:78-145 | overwriting one entry leaves the lookups of the other keys unchanged |
| Glossary.DictFromLiteralProperties | scripts/data_processing/process_data_final.py:78-145 | a dictionary literal has distinct keys, in order of their first occurrence, and each key maps to its last value in the literal |
| Glossary.FirstOccurrencesMembers | scripts/data_processing/process_data_final.py:78-145 | removing repeated keys loses no key and adds none |
| Normaliser.Mask | src/ai/workflow_steps/preprocess.py:91-98 | the masked and id-stripped text is single-spaced |
| Normaliser.UpperPhoneMask | src/ai/workflow_steps/preprocess.py:91-94 | the upper-case `+7 (XXX) XXX XX XX` lower-cases to the phone mask, so it is masked too |
| Normaliser.MaskIgnoresCase | src/ai/workflow_steps/preprocess.py:91 | masking gives the same result on the text and on its lower-cased form |
| Normaliser.ExpandAll | src/ai/workflow_steps/preprocess.py:168-170 | the glossary loop computes the left fold of the entries over the text |
| Normaliser.CollectTokens | src/ai/workflow_steps/preprocess.py:173-175 | the sentence loop collects the words of each `re.split` piece, in order |
| Normaliser.CollectRemoved | src/ai/workflow_steps/preprocess.py:177-188 | the removal loop collects the tokens whose lemma is a stop word, in order |
| Normaliser.RemovedMembers | src/ai/workflow_steps/preprocess.py:177-188 | a token is collected for removal if and only if its lemma is in one of the seven sets |
| Normaliser.FilterRemoved | src/ai/workflow_steps/preprocess.py:190 | filtering by value against the collected tokens keeps exactly the tokens whose lemma is no stop word |
| Normaliser.WithoutAnyKept | src/ai/workflow_steps/preprocess.py:190 | removal by value equals keeping by lemma, because the lemma is a function of the token |
| Normaliser.KeptMembers | src/ai/workflow_steps/preprocess.py:53-84 | a token is kept if and only if it occurs and its lemma is in none of the seven sets |
| Normaliser.KeptSubseq | src/ai/workflow_steps/preprocess.py:190 | kept tokens keep their order and their repeats |
| Normaliser.TokensClean | src/ai/workflow_steps/preprocess.py:173-175 | every token is non-empty and lower case, and holds no whitespace and none of `. , ! ? ; : ( ) [ ] { } / -` |
| Normaliser.Normalise | src/ai/workflow_steps/preprocess.py:90-198 | the imperative pipeline computes `Normalised` |
| Normaliser.NormalisedProperties | src/ai/workflow_steps/preprocess.py:173-198 | the output is single-spaced and stripped; its words are exactly the kept tokens of the expanded, masked text; each is a clean lower-case token whose lemma is no stop word |
| Preprocess.PreprocessQueryText | src/ai/workflow_steps/preprocess.py:35-198 | the result is the normalised query over this file's glossary, single-spaced, made of the kept clean tokens in order |
| Preprocess.PreprocessStep | src/ai/workflow_steps/preprocess.py:201-216 | the event carries `preprocess_query_text(ev.query)` |
| ProcessDataFinal.Preprocess | scripts/data_processing/process_data_final.py:37-169 | the same pipeline over the script's own dictionary with the same output guarantees |
| FinalGlossary.DkMeansPersonalAccount | scripts/data_processing/process_data_final.py:123 | the second `дк` entry wins: the effective dictionary expands `дк` to `личный кабинет` |
| FinalGlossary.RepeatedEntries | scripts/data_processing/process_data_final.py:83-132 | the repeated `тк`, `кр` and `атз` entries carry identical full forms |
| FinalGlossary.TailDk | scripts/data_processing/process_data_final.py:123 | within the last part of the literal the first `дк` entry is `личный кабинет` |
| FinalGlossary.DkEntriesDisagree | scripts/data_processing/process_data_final.py:90 | the two `дк` entries give `директор кластера` and `личный кабинет` |
| CellCleaning.CleanCell | scripts/data_processing/process_data.py:34-41 | the cleaned cell is single-spaced, with the words of lower-case, strip, `MAIL`, `LINK`, `PHONE` in that order |
| CellCleaning.ClearSpacesEmpty | scripts/data_processing/process_dataset.py:23-26 | `clear_spaces_inside("")` is `""` |
| CellCleaning.MaskWithoutIds | scripts/data_processing/process_dataset.py:36-43 | where no id pattern matches, the cell cleaning equals the query normaliser's masking stage, so its only extra step is id stripping |
| CellCleaning.EmailCell | scripts/data_processing/process_dataset.py:39 | a cell that is one e-mail address becomes the upper-case placeholder `MAIL` |
| CellCleaning.PlaceholderSurvives | scripts/data_processing/process_dataset.py:38-42 | the later passes leave `MAIL` alone: nothing lower-cases after masking |
| Deduplicate.DeduplicateStep | src/ai/workflow_steps/deduplicate.py:12-41 | the loop yields `Dedup(ev.qa)`, and the removed count is input length minus output length |
| Deduplicate.DedupLength | src/ai/workflow_steps/deduplicate.py:37 | the output is no longer than the input |
| Deduplicate.DedupAnswerSet | src/ai/workflow_steps/deduplicate.py:30-35 | the set of output answers equals the set of input answers |
| Deduplicate.DedupDistinct | src/ai/workflow_steps/deduplicate.py:27-35 | no two output pairs share an answer |
| Deduplicate.DedupSubseq | src/ai/workflow_steps/deduplicate.py:30-35 | the output is a subsequence of the input |
| Deduplicate.DedupIsFirstOccurrences | src/ai/workflow_steps/deduplicate.py:30-35 | the output is exactly the pairs at the first occurrence of their answer, in input order |
| Deduplicate.FirstOccurrencesStep | src/ai/workflow_steps/deduplicate.py:31-35 | a pair is kept exactly when no earlier pair has its answer |
| Deduplicate.SeenAnswerDropped | src/ai/workflow_steps/deduplicate.py:31-32 | a pair with an already seen answer is dropped, whatever its question |
| Deduplicate.DedupOfDistinct | src/ai/workflow_steps/deduplicate.py:27-41 | a list with distinct answers, the empty list included, is unchanged |
| Deduplicate.DedupIdempotent | src/ai/workflow_steps/deduplicate.py:27-41 | deduplicating twice equals deduplicating once |
| Conversation.UserMessages | src/ai/workflow_steps/sanity_check.py:215-216 | every selected message is a user message, and every user message of the history is selected |
| Conversation.UserMessagesSubseq | src/ai/workflow_steps/retrieve.py:77-79 | the user messages keep history order |
| Conversation.Contents | src/ai/workflow_steps/retrieve.py:82 | one content per message, position by position |
| Conversation.NoUserMessages | src/ai/workflow_steps/retrieve.py:78 | a history without user messages has no user messages |
| Conversation.LastUserMessagesWindow | src/ai/workflow_steps/sanity_check.py:214-217 | the window is the tail of the user messages, holding two of them or all there are; it is a subsequence of the history; it is empty for an empty or `None` history |
| Conversation.WindowOfUserMessages | src/ai/workflow_steps/retrieve.py:77-79 | the last two or fewer user messages end the list of user messages and occur in history order |
| Retrieve.ProcessScoredPoints | src/ai/workflow_steps/retrieve.py:17-32 | it succeeds exactly when every payload has both keys; then it keeps length and order and maps each point to `(question_clear, content_clear)`; otherwise it fails on a missing key |
| Retrieve.ContextualQueryEndsWithQuery | src/ai/workflow_steps/retrieve.py:75-88 | the search text ends with `query_clean` and is `query_clean` itself without a history |
| Retrieve.NoUserContext | src/ai/workflow_steps/retrieve.py:78-83 | a history with no user message yields exactly `query_clean` |
| Retrieve.ContextualQuerySplits | src/ai/workflow_steps/retrieve.py:75-83 | the search text splits at line breaks into the window's contents followed by the query, history first |
| Retrieve.WindowAvoids | src/ai/workflow_steps/retrieve.py:82 | contents taken from a history without line breaks contain none |
| Retrieve.RetrieveStep | src/ai/workflow_steps/retrieve.py:53-95 | `query_clean` is stored in the context, the history is left as it was, and the event carries the pairs found for the contextual search text |
| QaExamples.QaExamplesBranches | src/ai/workflow_steps/qa_examples.py:36-46 | an empty list stops with the fixed handoff message and the stored query; a non-empty list continues with the identical list; exactly one happens |
| QaExamples.IsThereQaExamplesStep | src/ai/workflow_steps/qa_examples.py:15-46 | the step reads `query_clean` from the context and returns the outcome above, or fails when the key is missing |
| QaExamplesLegacy.LegacyMessageAgrees | src/workflow_steps/qa_examples.py:18 | the older copy's fallback text is identical to the current one |
| QaExamplesLegacy.LegacyAgrees | src/workflow_steps/qa_examples.py:14-21 | the older copy of the step has the same outcome as the current one on every input |
| QaExamplesLegacy.IsThereQaExamplesStep | src/workflow_steps/qa_examples.py:9-21 | the older step reads `query_clean` from the context and returns its outcome |
| WorkflowContext.Context.constructor | src/ai/workflow.py:33-40 | a new context holds neither key |
| WorkflowContext.Context.SetClearHistory | src/ai/workflow.py:52-53 | stores the history and leaves `query_clean` alone |
| WorkflowContext.Context.SetQueryClean | src/ai/workflow_steps/retrieve.py:68 | stores the query and leaves the history alone |
| WorkflowContext.Context.GetClearHistory | src/ai/workflow_steps/sanity_check.py:212 | returns the stored history, or fails when none is stored |
| WorkflowContext.Context.GetQueryClean | src/ai/workflow_steps/qa_examples.py:32 | returns the stored query, or fails when none is stored |
| Events.OrEmpty | src/ai/workflow_steps/reply.py:54-55 | a `None` history counts as the empty list |
| Prompts.DocRecords | src/ai/workflow_steps/reply.py:60-66 | one document per pair, with `doc_id` values `0 .. n-1` in input order |
| Prompts.BuildDocRecords | src/ai/workflow_steps/reply.py:60-66 | the loop builds those documents |
| Prompts.Entries | src/ai/workflow_steps/reply.py:78-80 | one rendered entry per pair |
| Prompts.NumberedEntries | src/ai/workflow_steps/reply.py:97-99 | the accumulated text is the concatenation of the entries `Пример i:\nВопрос: q\nОтвет: a\n\n`, numbered from the start value in input order |
| Prompts.RenderNumbered | src/ai/workflow_steps/reply.py:97-99 | the `+=` loop builds that text |
| SanityCheck.Batches | src/ai/workflow_steps/sanity_check.py:170-173 | the batches are consecutive slices of ten with a shorter last one; there are ceil(n/10) of them and they concatenate to the input |
| SanityCheck.BatchesCons | src/ai/workflow_steps/sanity_check.py:170-173 | a first slice of ten followed by the batches of the rest gives the batches of the whole |
| SanityCheck.CorrectedFamily | src/ai/workflow_steps/sanity_check.py:48 | the corrected comparison (`SanityCheck.SanityFamily`, which the pipeline does not use) differs from the code as written for exactly the two Vikhr spellings, and with it the relevance filter would take the reply step's format for every model name |
| SanityCheck.VikhrDocumentsRole | src/ai/workflow_steps/sanity_check.py:48-103 | under the deployed Vikhr name the filter as written sends no `documents` message, the corrected branch sends the batch as one, and the reply step (src/ai/workflow_steps/reply.py:58-74) sends its examples as one |
| SanityCheck.FamiliesDisagree | src/ai/workflow_steps/sanity_check.py:48 | as written, the two steps choose different formats exactly for the reply step's Vikhr name and the misspelt name, and the Vikhr name gets the default format |
| SanityCheck.PreviousTextOfWindow | src/ai/workflow_steps/sanity_check.py:45 | the context messages render as nothing, one content, or two contents around `", "` |
| SanityCheck.SanityMessagesShape | src/ai/workflow_steps/sanity_check.py:47-103 | each format has its own message count; it starts with the system prompt except for Gemma, and ends with a user message that closes with the request for `len(batch)` scores |
| SanityCheck.BuildSanityMessages | src/ai/workflow_steps/sanity_check.py:47-103 | the branch-by-branch construction builds that message list |
| SanityCheck.Zeros | src/ai/workflow_steps/sanity_check.py:129 | the padding is `n` zeros |
| SanityCheck.Repaired | src/ai/workflow_steps/sanity_check.py:126-132 | the repaired scores have the batch's length: the original scores as a prefix, then trailing zeros |
| SanityCheck.RelevantIff | src/ai/workflow_steps/sanity_check.py:137-140 | with distinct pairs, a pair is kept if and only if its aligned score is exactly 1 |
| SanityCheck.RelevantSubseq | src/ai/workflow_steps/sanity_check.py:137-145 | the kept pairs are a subsequence of the batch |
| SanityCheck.ProcessQaBatch | src/ai/workflow_steps/sanity_check.py:19-145 | the batch is judged by the classifier's reply, repaired and filtered; an unparseable reply fails |
| SanityCheck.JudgedSubseq | src/ai/workflow_steps/sanity_check.py:122-145 | a batch fails exactly when its reply does not parse; otherwise its result is a subsequence of the batch |
| SanityCheck.BatchResults | src/ai/workflow_steps/sanity_check.py:178-182 | one result per batch |
| SanityCheck.SanityOutcomeSucceeds | src/ai/workflow_steps/sanity_check.py:182 | the check succeeds exactly when every batch's reply parses, and otherwise fails with the parse error |
| SanityCheck.SanityOutcomeFlattens | src/ai/workflow_steps/sanity_check.py:185 | the result is the batch results concatenated in batch order |
| SanityCheck.SanityOutcomeSubseq | src/ai/workflow_steps/sanity_check.py:178-185 | the result is a subsequence of the concatenated batches |
| SanityCheck.FailureSticks | src/ai/workflow_steps/sanity_check.py:182 | one failing batch fails the whole check |
| SanityCheck.SanityOutcomeSnoc | src/ai/workflow_steps/sanity_check.py:178-185 | one more succeeding batch appends its kept pairs |
| SanityCheck.SanityOutcomeStop | src/ai/workflow_steps/sanity_check.py:182 | the first failing batch's error is the outcome |
| SanityCheck.PerformSanityCheck | src/ai/workflow_steps/sanity_check.py:148-190 | the batch loop computes the outcome over the batches of ten |
| SanityCheck.SanityCheckSubseq | src/ai/workflow_steps/sanity_check.py:170-190 | the result is a subsequence of `qa_pairs`, and an empty input gives an empty result |
| SanityCheck.SanityCheckStep | src/ai/workflow_steps/sanity_check.py:193-223 | the step reads the query and the history from the context and filters the pairs with the window of the last two user messages, in the prompt format that the model-name comparison as written selects |
| SanityCheck.SanityStepOutcome | src/ai/workflow_steps/sanity_check.py:193-223 | the step fails on a query or history that was never stored; on success it passes on a subsequence of the pairs, in order; no pairs pass on as none |
| Reply.DefaultPromptShape | src/ai/workflow_steps/reply.py:95-110 | system message, then the history, then one user message with the examples and the query; length `len(history) + 2` |
| Reply.VikhrPromptShape | src/ai/workflow_steps/reply.py:58-74 | system message, then the history, the documents and the bare query; length `len(history) + 3` |
| Reply.GemmaPromptShape | src/ai/workflow_steps/reply.py:76-93 | no added system message and length `len(history) + 1`; the instructions open the first message and the examples and query close the last; an empty history gives one message holding all three, and otherwise the first history message is changed for the caller too |
| Reply.GenerateLlmResponse | src/ai/workflow_steps/reply.py:18-125 | the branch chosen by the model name builds the prompt of its format, a `None` history counting as empty, and returns the completion together with the history as the call leaves it |
| Reply.HistoryAfterReplyChanges | src/ai/workflow_steps/reply.py:83-93 | only the Gemma format changes the stored history, and only its first message, which gains the instructions in front |
| Reply.ReplyStep | src/ai/workflow_steps/reply.py:128-151 | the step stops with `(generated text, query_clean)`, fails on a missing key, leaves `query_clean` stored and records the change to the stored history |
| ContextualRelevancy.ContextEntries | scripts/evaluation/deepeval_contextual_relevancy.py:56 | one entry `Вопрос: q\nОтвет: a\n` per pair, position by position |
| ContextualRelevancy.ProcessContext | scripts/evaluation/deepeval_contextual_relevancy.py:48-57 | `None` or an empty list gives `None`; otherwise a list of entries, one per pair in order, never joined |
| ContextualRelevancy.EntryEmbedsContextEntry | scripts/evaluation/deepeval_contextual_relevancy.py:56 | the reply prompt's example entry is the context entry with a numbered heading and a blank line |
| Workflow.Transition | src/ai/workflow.py:58-127 | every successful step moves to an event of the next stage, and the stage rank strictly decreases, so a run ends |
| Workflow.DeduplicateIgnoresStore | src/ai/workflow.py:72-83 | the deduplicate step neither reads nor writes the context |
| Workflow.StopCarriesStoredQuery | src/ai/workflow.py:99-127 | every stop result pairs its text with the `query_clean` stored in the context |
| Workflow.ReplyNeedsExamples | src/ai/workflow.py:99-127 | the reply stage is reached only from the examples check, only with a non-empty list, passed on unchanged |
| Workflow.StoreAfterRetrieval | src/ai/workflow.py:52-70 | after retrieval the context holds the start event's history, unchanged, and the cleaned query |
| Workflow.FinishFromExamplesCheck | src/ai/workflow.py:99-127 | from the examples check, an empty list ends with the handoff message and the query; otherwise the run ends with the completion of the reply prompt |
| Workflow.FinishFromStart | src/ai/workflow.py:40-127 | a whole run, stage by stage: search, deduplicate, filter, then the examples check, with a failure at any stage ending the run |
| Workflow.PipelineOutcome | src/ai/workflow.py:40-127 | a successful run's second component is the cleaned query; with no relevant pair it answers with the handoff message; otherwise it succeeds exactly when the completion does, with that text |
| Workflow.FinishStep | src/ai/workflow.py:58-127 | one step of a run, unfolded |
| Workflow.FinishFirstStep | src/ai/workflow.py:52-56 | the first step stores the start event's history and continues with the cleaned query |
| Workflow.PreprocessStage | src/ai/workflow.py:40-56 | the history is stored unchanged before preprocessing, and the event carries the cleaned query |
| Workflow.Step | src/ai/workflow.py:58-127 | one step on the context computes the transition of the event and the stored keys |
| Workflow.RunFrom | src/ai/workflow.py:58-127 | the driver loop from any event computes the run from that event |
| Workflow.Run | src/ai/workflow.py:33-127 | the driver computes the pipeline on the query and the history |
| Api.ProcessChatMessage | src/api/__init__.py:67-139 | the workflow gets the clear history or `[]`; the shown history grows by the raw message and the answer, the clear history by the cleaned query and the answer; the response echoes both; any failure becomes HTTP 500, with a detail that stands for the exception's text |
| Api.NextWindowEndsWithCleanedQuery | src/api/__init__.py:119-120 | in the returned clear history the last user message is this turn's cleaned query, so the next turn's context window ends with it |
| Api.ExpectedOutputCases | src/api/__init__.py:168-177 | the answer when liked; otherwise the suggestion exactly when it has a non-whitespace character; otherwise nothing |
| Api.FeedbackMetadata | src/api/__init__.py:159-165 | the metadata always holds the model name and the flag, and the comment only when it is non-empty |
| Api.SubmitUserFeedback | src/api/__init__.py:142-198 | one dataset item `qa` is created from the question, the expected output and the metadata; success gives the fixed message, and a client error gives `success=False` with the error |

## Specification functions

These functions define what a step computes and carry no contract of their
own; the members named beside them state their properties.

| function | models | properties stated by |
|---|---|---|
| SanityCheck.SanityFamilyAsWritten | src/ai/workflow_steps/sanity_check.py:48 | SanityCheck.FamiliesDisagree, SanityCheck.VikhrDocumentsRole |
| SanityCheck.SanityFamily | src/ai/workflow_steps/sanity_check.py:48, corrected | SanityCheck.CorrectedFamily, SanityCheck.VikhrDocumentsRole |
| SanityCheck.Request | src/ai/workflow_steps/sanity_check.py:54-58 | SanityCheck.SanityMessagesShape |
| SanityCheck.SanityMessages | src/ai/workflow_steps/sanity_check.py:47-103 | SanityCheck.SanityMessagesShape, SanityCheck.BuildSanityMessages, SanityCheck.VikhrDocumentsRole |
| SanityCheck.SanityStep | src/ai/workflow_steps/sanity_check.py:193-223 | SanityCheck.SanityStepOutcome, SanityCheck.SanityCheckStep, Workflow.FinishFromStart |
| Reply.ReplyPrompt | src/ai/workflow_steps/reply.py:57-110 | Reply.DefaultPromptShape, Reply.VikhrPromptShape, Reply.GemmaPromptShape, Reply.GenerateLlmResponse |
| Reply.ReplyOutcome | src/ai/workflow_steps/reply.py:128-151 | Reply.ReplyStep, Workflow.Transition, Workflow.FinishFromExamplesCheck |
| Retrieve.ContextualQuery | src/ai/workflow_steps/retrieve.py:75-88 | Retrieve.ContextualQueryEndsWithQuery, Retrieve.NoUserContext, Retrieve.ContextualQuerySplits |
| Retrieve.RetrieveOutcome | src/ai/workflow_steps/retrieve.py:53-95 | Retrieve.RetrieveStep, Workflow.Transition, Workflow.FinishFromStart |
| QaExamples.QaExamplesOutcome | src/ai/workflow_steps/qa_examples.py:36-46 | QaExamples.QaExamplesBranches, QaExamples.IsThereQaExamplesStep |
| Normaliser.Normalised | src/ai/workflow_steps/preprocess.py:90-198 | Normaliser.Normalise, Normaliser.NormalisedProperties |
| Preprocess.CleanQuery | src/ai/workflow_steps/preprocess.py:35-198 | Preprocess.PreprocessQueryText, Preprocess.PreprocessStep |
| Deduplicate.Dedup | src/ai/workflow_steps/deduplicate.py:27-35 | the Deduplicate lemmas of the table above and Deduplicate.DeduplicateStep |
| Conversation.LastUserMessages | src/ai/workflow_steps/sanity_check.py:214-217 | Conversation.LastUserMessagesWindow, Conversation.WindowOfUserMessages |
| Workflow.Finish | src/ai/workflow.py:40-127 | Workflow.FinishStep, Workflow.FinishFirstStep, Workflow.FinishFromStart, Workflow.FinishFromExamplesCheck, Workflow.RunFrom |
| Workflow.Pipeline | src/ai/workflow.py:33-127 | Workflow.PipelineOutcome, Workflow.Run |

The pipeline uses the model-name comparison as the relevance filter writes
it; the corrected comparison is stated beside it (see "## Findings").

## Left out

- I/O and external services are parameters, so the model has no concrete
  behaviour for them:
  - the chat-completion calls (`src/ai/workflow_steps/sanity_check.py:106-116`,
    `src/ai/workflow_steps/reply.py:115-120`)
  - the lemmatiser `pymorphy3`. No property depends on a concrete lemma.
  - the vector search with its embedder (`src/ai/retrieval/__init__.py` is
    not part of this model)
  - `json.dumps`, `json.loads`, the Langfuse client, tracing, session and
    user ids
  - logging
- The classifier reply is given already parsed, as a list of integers or
  `None` when `json.loads`/`int` would raise. Text parsing is not modelled.
- `asyncio.gather` is modelled as an order-preserving sequential map. The
  concurrency of the batches is not modelled.
- A failure in the first failing batch ends the relevance check. Which
  exception wins when several batches fail concurrently is not modelled.
- Python's full Unicode case mapping and character classes are
  approximated:
  - `lower()` folds ASCII, Latin-1 and basic Cyrillic capitals
  - `\w` is ASCII letters and digits, `_`, Latin-1 letters and Cyrillic
  - `\d` is ASCII digits
  - whitespace is the character set of `str.isspace()`
- Preprocess.GlossaryDict and FinalGlossary.GlossaryDict: no lemma states
  that the two effective dictionaries are equal apart from `дк`.
  Glossary.ExpandAgree states the general fact, but its instance for the two
  63-key dictionaries is too costly to prove.
- Reply.GenerateLlmResponse: the in-place change of the first history
  message in the Gemma format is returned as a value and written back to the
  step context. The context holds the list the API handler passed in, so in
  the source the handler's returned `clear_history` also carries the changed
  first message. Api.ProcessChatMessage does not model that aliasing, and
  its returned clear history is built from the history as it was sent.
- Api.ProcessChatMessage: the detail of the HTTP 500 is Wrappers.ErrorText,
  a stand-in for the exception's text. The wording of Python's exception
  messages is not modelled, only the status 500 and the propagation of the
  failure.
- SanityCheck.RelevantIff is stated for batches of distinct pairs only,
  because membership cannot tell two equal pairs apart. In the pipeline
  every batch comes after deduplication by answer, so its pairs are
  distinct.
- Workflow.Finish takes the query normaliser as a parameter. Workflow.Pipeline
  fixes it to Preprocess.CleanQuery with the lemmatiser, and the lemmas hold
  for any normaliser.
- The context is a class with one field per key. The llama-index store's
  other keys, its serialisation and its locking are not modelled.
- The workflow's three-minute timeout (`src/ai/workflow_with_tracing.py`) is
  not part of this model.
- The `/` and `/health` endpoints return constant dictionaries and are not
  modelled.
- `src/ui`, `src/app_with_gradio.py`, `src/settings.py` and
  `src/ai/retrieval/example.py` are not part of this model.
- The pandas `read_excel`/`to_excel` calls of the data scripts are not part
  of this model.
- deepeval_contextual_relevancy.py outside `process_context` is not part of
  this model: trace fetching and scoring.
- `int()` accepts any number, so a score other than 0 or 1 is possible, and
  only a score of exactly 1 keeps a pair
  (`src/ai/workflow_steps/sanity_check.py:122`, `137-140`). The model takes
  the parsed scores as integers and keeps exactly the pairs scored 1.
- A classifier reply that `json.loads` or `int()` cannot parse fails the
  whole request (`src/ai/workflow_steps/sanity_check.py:122`). The model
  stands for it with `None` from the classifier.

## Findings

| source | as written | input that shows it | evidently intended | confidence | as-written member | corrected member |
|---|---|---|---|---|---|---|
| src/ai/workflow_steps/sanity_check.py:48 | the relevance filter compares the model name with `"VikhrMODEL_NAMEs/Vikhr-Nemo-12B-Instruct-R-21-09-24"`, a search-and-replace garbling of the name the reply step uses (src/ai/workflow_steps/reply.py:58) | `MODEL_NAME = "Vikhrmodels/Vikhr-Nemo-12B-Instruct-R-21-09-24"`: the reply step takes the Vikhr format, while the relevance filter falls to the default format and never sends the `documents` role | the same Vikhr name as the reply step, so both steps use the same format for the same model | not executed | SanityCheck.SanityFamilyAsWritten, used by SanityCheck.SanityStep and SanityCheck.SanityCheckStep (shown by SanityCheck.FamiliesDisagree and SanityCheck.VikhrDocumentsRole) | SanityCheck.SanityFamily (proved by SanityCheck.CorrectedFamily) |
