# math_mentor core, modelled in Dafny

This project models the deterministic core of math_mentor, a multi-agent solver for JEE-level
mathematics problems. The agents' language-model calls are opaque capabilities. Everything
around those calls is modelled and proved:

- the case memory (`MemoryStore`): storing runs, recording feedback, the Jaccard-plus-topic
  similarity search, correction patterns and feedback statistics;
- the retrieval pipeline (`RAGPipeline`): the line chunker with its character budget and line
  overlap, knowledge-base loading, index building, the post-processing of retrieval results,
  and the context string;
- the orchestrator (`Orchestrator.run`): the append-only agent trace, the two human-review
  exits, the override, the confidence fallback chain and the record it stores;
- the agents' post-processing: the parser's correction patterns, and the fallback records of
  the parser, router, solver and verifier; the verifier's confidence threshold; the solver's
  worked examples;
- the best-effort JSON decoder `parse_json_response`, with `json.loads` as a partial function.
  utils/llm.py:106-124 and normalization/llm.py:73-91 hold the same text, so one function,
  `Llm.ParseJsonResponse`, models both, and each lemma about it holds for either copy;
- the input post-processing: speech normalisation, transcript confidence, the choice between
  OCR backends and the review gating.

Files and modules:
- `json.dfy` (`Json`) holds decoded values, Python truthiness, `dict.get` and the
  exceptions that can escape.
- `text.dfy` (`Text`) models the `str` methods the core uses: `strip`, `lower`, `split`,
  `join`, `replace`, `in`, and string order.
- `lists.dfy` (`Lists`) models slicing; `sorting.dfy` (`Sorting`) models a stable
  descending sort.
- `llm.dfy` (`Llm`) holds the capabilities and the decoder.
- `memory.dfy` (`Memory`), `rag.dfy` (`Rag`), `parser.dfy` (`Parser`), `router.dfy`
  (`Router`), `solver.dfy` (`Solver`), `verifier.dfy` (`Verifier`), `audio.dfy` (`Audio`),
  `ocr.dfy` (`Ocr`) and `orchestrator.dfy` (`Orchestration`) follow the source files of the
  same names.

The classes with state are `MemoryStore`, `RAGPipeline`, `ParserAgent`, `AgentTrace` and
`Orchestrator`. Their methods update fields, loop with invariants, and are proved equal to
specification functions (`Similar`, `Chunked`, `Retrieval`, `ApplyPatterns`, `Outcome`, …).
The properties the source promises are proved about those functions as lemmas.

`Orchestrator.Run` is proved to return, and to leave in memory, exactly what
`Orchestration.Outcome` computes. `Outcome` is the whole run as one function of the memory
records, the refreshed correction patterns, the retrieval state and the collaborators.
`Orchestration.Advance` is the run as a stage machine (routing, retrieval, memory lookup,
solving, concluding). The per-stage lemmas prove the order of the trace, the stored record and
the review flags. Every method of the orchestrator mirrors one stage of that machine.

Where Python raises on malformed dynamic data, the model returns `Err(...)`. Examples: an
agent reply that decodes to something other than a dict, a verifier confidence that cannot be
compared, a `problem_text` that is not a string, or an out-of-range fallback index in
`retrieve`.

## Model

| member | source | states |
|---|---|---|
| Memory.MemoryStore.constructor | memory/store.py:12-23 | the records are the database file's, or none without a file; the saved snapshot equals them |
| Memory.MemoryStore.Store | memory/store.py:29-57 | exactly one record is appended at the end with the given fresh id and timestamp, feedback and comment None unless given; earlier records are unchanged; the snapshot is saved; the id is returned; unique ids stay unique; without a reviewer comment no input type gains a correction pattern; the total grows by one, correct or incorrect by one exactly when that is the feedback given, and pending by one when none is given |
| Memory.MemoryStore.UpdateFeedback | memory/store.py:59-66 | returns True iff some record has the id; then only the first such record gets the feedback and comment and the file is saved; otherwise nothing changes; unique ids stay unique |
| Memory.MemoryStore.FindSimilar | memory/store.py:68-87 | the loop over the records computes `Similar` and leaves the records unchanged |
| Memory.JudgeErr | memory/store.py:72-76 | judging a record raises exactly when it is not marked incorrect and its problem_text is not a string, and then only with the `lower` AttributeError |
| Memory.JudgeKept | memory/store.py:70-85 | a kept record is not marked incorrect, has a non-empty word set, and scores the Jaccard similarity of the lower-cased word sets plus 0.2 for a topic equal under Python's `==` (`Json.PyEq`), strictly above 0.15 |
| Memory.BoolTopicEarnsBonus | memory/store.py:82 | a stored topic `true` earns the topic bonus against the topic `1`, since `True == 1` in Python |
| Memory.JudgeScored | memory/store.py:76-85 | a record with words that is not marked incorrect is judged by its score alone |
| Memory.ScoredListKept | memory/store.py:69-85 | every scored pair is a stored record together with the score its judgement kept |
| Memory.ScoredListErr | memory/store.py:71-76 | the search raises iff some record is malformed, with the same error whatever the query |
| Memory.TopOfSorted | memory/store.py:86-87 | the first top_k pairs of the sorted list are pairs of the list, no more than top_k, in non-increasing score order |
| Memory.TopOfSortedIsTopK | memory/store.py:86-87 | the first top_k pairs of the sorted list are a sub-multiset of the pairs, as many as the slice keeps, by non-increasing score, and every pair left out scores at most every pair kept |
| Memory.ScoredListComplete | memory/store.py:69-85 | every stored record the search keeps is in the scored list with its score |
| Memory.SimilarProperties | memory/store.py:68-87 | for top_k >= 0 exactly min(top_k, number of kept records) results, each a stored record the search kept, in non-increasing score order; every kept record is scored, the result is the records of the best scored pairs, and every kept pair left out scores at most every one returned |
| Memory.ScoredListLength | memory/store.py:69-85 | the scored list holds exactly one pair per kept record |
| Memory.SimilarTiesInStoredOrder | memory/store.py:86 | the sort is stable: records with equal scores come out in stored order |
| Memory.Jaccard | memory/store.py:79-81 | the similarity lies in [0, 1] |
| Memory.FirstWithId | memory/store.py:60-61 | the position of the first record with the id: no earlier record has it |
| Memory.MemoryStore.GetCorrectionPatterns | memory/store.py:89-98 | the loop gives the last ten patterns of `PatternsOf` in chronological order, never more than ten |
| Memory.PatternsFromReviewedRecords | memory/store.py:91-97 | every pattern is the raw input, non-empty reviewer comment and parsed question of a stored record of that input type |
| Memory.MemoryStore.GetStats | memory/store.py:103-107 | total is the number of records; correct, incorrect and pending are the feedback counts, pending including missing feedback; they add up to the total |
| Memory.CountsPartition | memory/store.py:104-107 | the correct, incorrect and pending counts partition the records |
| Memory.CountFeedbackUpdate | memory/store.py:59-66 | replacing one record (as feedback does) moves at most one unit between the counts |
| Json.PyEqReflexive | memory/store.py:82 | Python's `==` on decoded values is reflexive, lists and dicts included |
| Json.PyEqWithoutBools | memory/store.py:82 | between values holding no bool, Python's `==` is exactly equality of the values |
| Json.PyEqBool | memory/store.py:82 | a bool equals exactly the same bool or the number 1 or 0 it stands for |
| Text.WordSetEmptyIffBlank | memory/store.py:76-78 | the word set of a text is empty iff the text is blank |
| Sorting.SortDesc | memory/store.py:86 | the sorted list is in non-increasing key order and is a permutation of the input |
| Sorting.SortDescStable | memory/store.py:86 | for every key the equal-keyed elements keep their input order |
| Lists.TakeLast | memory/store.py:98 | `s[-n:]` is the suffix of length min(n, len(s)) for n ≥ 1, all of `s` for n = 0 |
| Lists.Take | memory/store.py:87 | `s[:k]` is the prefix of length min(k, len(s)) for k ≥ 0 |
| Rag.RAGPipeline.ChunkText | rag/pipeline.py:55-74 | the loop computes `Chunked` (whose windows tile the lines, see `Rag.FoldTiles` and `Rag.FoldCovers`); its invariant keeps `current_len` equal to the sum of the line lengths of the working chunk |
| Rag.FoldTiles | rag/pipeline.py:57-73 | the working chunks are windows of consecutive lines: the first starts at line 0, each closed one is the non-empty slice it records, the next starts where it ends minus the `current[-overlap_lines:]` it carries over, and the last runs to the final line |
| Rag.FoldCovers | rag/pipeline.py:59-73 | no line is lost: every line lies in some closed working chunk or in the final one |
| Rag.ChunksWellFormed | rag/pipeline.py:62-73 | every chunk carries the given source and is non-empty text that stripping leaves as it is |
| Rag.FoldEndsWithLastLine | rag/pipeline.py:67-73 | after at least one line the working chunk is non-empty and ends with that line, so the final flush always sees it |
| Rag.FoldWithinBudget | rag/pipeline.py:61-69 | with overlap ≥ 1, every working chunk is within the budget of line characters or is at most the overlap plus one line |
| Rag.ChunkBudget | rag/pipeline.py:55-74 | with overlap ≥ 1, every chunk is the stripped newline-join of a non-empty window `lines[a:b]` of the text's lines whose lengths sum to at most chunk_size or which holds at most overlap + 1 lines |
| Rag.ShortTextOneChunk | rag/pipeline.py:57-73 | a text whose lines fit the budget becomes the single chunk `text.strip()`, or none when blank |
| Rag.OverlapZeroKeepsEverything | rag/pipeline.py:65 | with overlap_lines = 0 the working chunk holds every line read so far, since `current[-0:]` is the whole list |
| Rag.RAGPipeline.LoadKnowledgeBase | rag/pipeline.py:43-53 | the loop computes `KbChunks`: the chunks of the `.txt` files, file by file |
| Rag.TxtNames | rag/pipeline.py:48 | exactly the `.txt` names of the directory, in strictly increasing name order |
| Rag.KbChunksOrdered | rag/pipeline.py:43-53 | a missing directory gives no chunks; every chunk comes from a `.txt` file, is well formed, is labelled with its file name, and chunks are grouped in file name order |
| Rag.RAGPipeline.BuildIndex | rag/pipeline.py:80-91 | the chunks are reloaded; with none the index is dropped; otherwise every chunk is embedded and indexed when FAISS is available |
| Rag.RAGPipeline.RebuildIndex | rag/pipeline.py:114-115 | the same state as a build |
| Rag.RAGPipeline.constructor | rag/pipeline.py:35-41 | persisted chunks and embeddings are loaded when both files exist, the index only with its file and FAISS; otherwise the index is built |
| Rag.RAGPipeline.Retrieve | rag/pipeline.py:117-140 | the loops compute `Retrieval` for the current state, leaving the stored chunks unchanged |
| Rag.RetrievalProperties | rag/pipeline.py:117-140 | no chunks gives []; the FAISS branch never raises; at most min(top_k, chunks) results, each a copy of a stored chunk; FAISS scores in (0, 1]; fallback scores non-increasing |
| Rag.FromHitsCopies | rag/pipeline.py:124-128 | out-of-range hits are skipped; every result copies a stored chunk with score 1/(1+dist) in (0, 1] |
| Rag.FromRankingCopies | rag/pipeline.py:136-139 | the fallback raises IndexError exactly when a ranked position has no chunk; otherwise result i is chunk `idx[i]` with its score |
| Rag.RAGPipeline.GetContextString | rag/pipeline.py:142-149 | returns the retrieved chunks with their context, or the retrieval's error |
| Rag.ContextOfProperties | rag/pipeline.py:144-148 | the context is empty iff nothing was retrieved; one chunk gives "[Source: s]\ntext"; consecutive runs of chunks join with "\n\n---\n\n" in retrieval order |
| Text.StripIdempotent | rag/pipeline.py:62 | stripping a stripped text changes nothing |
| Llm.EmptyTextDecodesEmpty | utils/llm.py:107-108 | empty or missing text gives {} |
| Llm.StrictParseWins | utils/llm.py:109-110 | a text that parses as it stands is returned as parsed, dict or not |
| Llm.FencedParseSecond | utils/llm.py:113-115 | otherwise the fence-stripped text is tried second |
| Llm.BraceParseThird | utils/llm.py:118-121 | otherwise the greedy first-'{'-to-last-'}' span of the original is tried third |
| Llm.AllAttemptsFail | utils/llm.py:109-124 | no decode error escapes: when all three attempts fail the result is {} |
| Llm.BraceSpanSpec | normalization/llm.py:85 | the span exists iff some '}' follows some '{', and runs from the first '{' to the last '}' |
| Llm.FencedPayload | normalization/llm.py:80-82 | a reply wrapped in a json code fence yields its stripped payload for the second attempt |
| Parser.ParserAgent.constructor | agents/parser_agent.py:28-29 | the patterns given, or none |
| Parser.ParserAgent.ApplyCorrectionPatterns | agents/parser_agent.py:31-37 | the loop applies the patterns in list order |
| Parser.ApplyPatternsConcat | agents/parser_agent.py:32-37 | applying a list of patterns is applying its first part and then the rest |
| Parser.SkippedPattern | agents/parser_agent.py:33-35 | a pattern with an empty original or an empty correction is skipped |
| Parser.UsablePattern | agents/parser_agent.py:35-36 | a usable pattern replaces every non-overlapping occurrence of its original; an absent original leaves the text unchanged |
| Parser.AbsentPatternsIdentity | agents/parser_agent.py:35 | patterns whose originals never occur leave the text unchanged |
| Text.ReplaceAllIsJoinOfSplit | agents/parser_agent.py:36 | `s.replace(old, new)` is the split at the occurrences of old rejoined with new |
| Parser.ParserAgent.Parse | agents/parser_agent.py:39-67 | the model sees the corrected text, never the raw one, and the decoded reply goes through the fallback |
| Parser.ParseOutcomeProperties | agents/parser_agent.py:51-67 | a truthy decode is returned unchanged; otherwise the fallback keeps the corrected text, topic "other", needs clarification for "Failed to parse structure", confidence 0.3 |
| Router.RouteProperties | agents/router_agent.py:21-44 | a truthy decode is returned unchanged; otherwise topic and subtopic are carried over (defaults "other" and ""), strategy "Direct computation", difficulty "medium", 4 steps, no tools or considerations |
| Solver.SimilarContextProperties | agents/solver_agent.py:52-61 | at most two examples, only from the first two similar problems; the context is empty iff neither qualifies, and otherwise starts with the header |
| Solver.ExamplesSelect | agents/solver_agent.py:56-59 | there is one example per problem with a truthy parsed question and answer; the qualifying problem at position k gives the example at position "qualifying problems before k", so the order is kept; every example is such a text; none iff no problem qualifies |
| Solver.AssembleSimilarContext | agents/solver_agent.py:52-61 | the loop computes `SimilarContext` |
| Solver.Solve | agents/solver_agent.py:51-95 | the solver model receives the assembled examples, and its decoded reply goes through the fallback |
| Solver.SolveOutcomeProperties | agents/solver_agent.py:82-95 | a truthy decode is returned unchanged; otherwise answer "Unable to solve", confidence 0.0, method "N/A", no steps, assumptions or alternatives |
| Verifier.Verify | agents/verifier_agent.py:31-75 | the decoded reply, or the fallback, goes through the threshold step |
| Verifier.GateProperties | agents/verifier_agent.py:70-75 | at or above the threshold the result is unchanged; below it (missing counts as 0) needs_hitl becomes true, a truthy hitl_reason is kept, otherwise "Low confidence (c)" is set, and nothing else changes |
| Verifier.MissingConfidenceForcesReview | agents/verifier_agent.py:70-71 | a result without a confidence goes to review for any positive threshold |
| Verifier.FallbackNeedsReview | agents/verifier_agent.py:56-71 | the fallback always goes to review for "Verification system error", is_correct false, issues ["Verification failed"] |
| Verifier.GateOkShape | agents/verifier_agent.py:70-73 | whatever passes the threshold step is a dict whose confidence is a number |
| Audio.NormalizeMathSpeech | utils/audio.py:44-68 | the loop lower-cases and applies the table entry by entry, each replacing every occurrence (with the corrected table, see Findings) |
| Audio.TableEntryReplacesEvery | utils/audio.py:66-67 | each entry of either table turns the text so far into its pieces between occurrences of the phrase joined by the symbol, so every occurrence is replaced |
| Audio.NormalizeIgnoresCase | utils/audio.py:65 | with any table, the table as written included, the text is lower-cased before any replacement, so case never matters |
| Audio.NormalizePlainText | utils/audio.py:65-68 | with any table, lower-cased text with none of its phrases is returned as it is |
| Audio.PowerPhraseIsOneCaret | utils/audio.py:49-50 | in the table as written and in the corrected one, "raised to the power of" is rewritten before "raised to", so it becomes a single "^" |
| Audio.CorrectedTable | utils/audio.py:45-64 | the corrected table differs from the written one only by swapping "sine of" and "cosine of" |
| Audio.CosineShadowed | utils/audio.py:61-62 | with the table as written, "cosine of" comes out as "cosin(" |
| Audio.CosineNormalized | utils/audio.py:61-62 | with the corrected table, "cosine of" comes out as "cos(" |
| Audio.Clamp01Properties | utils/audio.py:34 | the clamp lies in [0, 1] and keeps values already in it |
| Audio.MeanOfMissing | utils/audio.py:33 | segments all lacking avg_logprob have mean -1.0 |
| Audio.TranscriptConfidenceProperties | utils/audio.py:26-41 | with segments the confidence is clamp(mean avg_logprob + 1), a missing one counting as -1.0; without segments 0.6 for non-blank text, else 0.0 |
| Audio.TranscribeAudioProperties | utils/audio.py:71-83 | review iff confidence below the threshold; without the speech model the fixed message, 0.0 and review; a failed run has confidence 0.0 |
| Ocr.KeptWordsMembers | utils/ocr.py:30 | a word is kept iff some pair holds it with a positive confidence and it is not blank; the pairing stops at the shorter column |
| Ocr.PositiveConfsProperties | utils/ocr.py:31 | the kept confidences are exactly the positive entries; their sum is positive when one exists |
| Ocr.TesseractConfidenceProperties | utils/ocr.py:31-33 | the confidence is 0.0 iff no entry is positive, never negative, and at most 1.0 when no entry exceeds 100 |
| Ocr.EasyOcrBounds | utils/ocr.py:39-53 | with confidences in [0, 1] the mean lies in [0, 1] |
| Ocr.ExtractProperties | utils/ocr.py:56-72 | without a backend the fixed message, 0.0 and review; otherwise review iff below the threshold; a non-empty first reading at 0.3 or more is final; a retry keeps the strictly more confident reading, so the confidence never drops |
| Ocr.ExtractConfidenceBounds | utils/ocr.py:56-72 | with well-formed backend confidences the final confidence lies in [0, 1] |
| Ocr.ExtractTextFromImage | utils/ocr.py:56-72 | the method computes `Extract` |
| Orchestration.StepOf | orchestrator.py:11-17 | an entry keeps the agent, status and summary; falsy data becomes {} |
| Orchestration.AgentTrace.constructor | orchestrator.py:8-9 | a new trace is empty |
| Orchestration.AgentTrace.Add | orchestrator.py:11-17 | exactly one entry is appended at the end; earlier entries are unchanged |
| Orchestration.Prefix | orchestrator.py:85 | slicing succeeds only for strings and lists; a string gives a prefix of at most n characters |
| Orchestration.ModelAgents | orchestrator.py:84-122 | every verification the modelled verifier returns is readable by the trace line |
| Orchestration.Orchestrator.constructor | orchestrator.py:24-31 | fresh retrieval, memory and parser; the memory holds the database's records; the parser has no patterns |
| Orchestration.Orchestrator.RefreshParserCorrections | orchestrator.py:33-35 | the parser gets the memory's last ten patterns for the input type |
| Orchestration.Orchestrator.Run | orchestrator.py:37-142 | patterns are refreshed before parsing; the result and the memory are exactly `Outcome`'s: an exception or a halt leaves memory as it was, a completed run appends its one record |
| Orchestration.Orchestrator.ParsedStage | orchestrator.py:44-81 | the parser's step is traced and a problem needing clarification halts the run without an override |
| Orchestration.Orchestrator.RouteStage | orchestrator.py:83-86 | routing, traced with the strategy's first 80 characters |
| Orchestration.Orchestrator.RetrieveStage | orchestrator.py:88-92 | retrieval for the problem text (the raw input by default), traced with the chunk count |
| Orchestration.Orchestrator.RecallStage | orchestrator.py:94-100 | the memory lookup for the same query, traced with "done" or "none" |
| Orchestration.Orchestrator.SolveStage | orchestrator.py:102-105 | solving, traced with the answer's first 60 characters |
| Orchestration.Orchestrator.ConcludeStage | orchestrator.py:107-142 | verification, explanation and the stored record |
| Orchestration.OverrideBypassesParser | orchestrator.py:69-72 | an override with a parsed problem makes it the parsed problem whatever the input, patterns or model |
| Orchestration.HaltForClarification | orchestrator.py:77-81 | needing clarification without an override: review with reason exactly "Parser: " + the clarification_reason (default "Ambiguous problem"), only the parser's step, nothing solved or stored, no record id |
| Orchestration.ConcludedRun | orchestrator.py:107-142 | the last stage appends the verifier's and explainer's steps; confidence is the verifier's, else the solver's, else 0.5; review only without an override; the record is stored |
| Orchestration.SolvedRun | orchestrator.py:102-142 | solving appends the solver's step before concluding |
| Orchestration.RecalledRun | orchestrator.py:94-142 | the memory lookup appends its step before solving |
| Orchestration.RetrievedRun | orchestrator.py:88-142 | retrieval appends its step before the memory lookup |
| Orchestration.RoutedRun | orchestrator.py:83-142 | routing appends its step and the rest follow in pipeline order |
| Orchestration.CompletedRun | orchestrator.py:74-138 | a run stores a record iff it does not halt, and then it is completed with one step per agent in the order Parser, Router, RAG, Memory, Solver, Verifier, Explainer |
| Orchestration.OverrideNeverReviews | orchestrator.py:77-119 | with an override the run never asks for review |
| Orchestration.OutcomeKeepsIdsUnique | orchestrator.py:129-137 | a run that stores a record under an unused id keeps the memory's ids unique |

## Left out

- Persistence: `_load`, `_save`, pickle and numpy files are not modelled as I/O. The memory's
  `saved` field is the snapshot last written, and a persisted retrieval state is a
  constructor parameter.
- `uuid4()` and `utcnow()` are parameters. `Memory.MemoryStore.Store` requires an id not in
  use, which a fresh uuid4 gives.
- The embedding model, FAISS and numpy (`_embed`, `index.search`, `np.dot`, `argsort`) are the
  functions of `Rag.Numerics`. `Rag.NumericsFit` states what the model needs of them:
  non-negative distances, and a descending ranking of the scores.
- Rag.RetrievalProperties: no order is claimed among equal fallback scores, because numpy's
  `argsort` is not stable.
- `_load_or_build` does not check that the loaded chunks match the embeddings. The model keeps
  that: `Rag.FromRankingCopies` shows the IndexError that a mismatch can cause.
- Memory.SimilarProperties: `top_k` follows Python slicing, so a negative `top_k` counts
  from the end. The bound "at most top_k" is stated for `top_k >= 0` only. The exact length
  (through `Memory.TopK`) covers every `top_k`.
- Audio.TranscribeAudio and Audio.NormalizeMathSpeech use the corrected table (see Findings).
  For a transcript containing "cosine of" they give "cos(", where the source as written gives
  "cosin(". The written table is kept as `Audio.SourceReplacements`, and the lemmas about case,
  plain text and "raised to the power of" hold for both tables.
- Text.Lower: `str.lower()` is modelled for ASCII letters only. Other characters are kept,
  and Unicode case mapping is not modelled.
- Verifier.GateProperties: the low-confidence reason formats the confidence through the
  `fixed2` capability. The rounding of `%.2f` is not modelled.
- Scores and confidences are real numbers. Floating-point rounding is not modelled.
- The language-model client (`chat_completion`, `get_client`, `_resolve_secret`) and the
  agents' prompt text are not modelled. Each agent's call is a capability of
  `Llm.Capabilities`, applied to the values its prompt is built from. An exception from a call
  would end the run; the model has no such exception.
- The explainer agent is the opaque `explainer` capability.
- The router, solver, verifier and explainer keep no state. The orchestrator reaches them
  through the capabilities rather than as fields.
- `Orchestration.Orchestrator.ConcludeStage` writes the final result fields together. The
  source assigns them one by one, and no code can observe the difference.
- Trace summaries and f-strings: `str()` of non-string values is the `show` capability.
  Slicing a strategy or answer that is neither a string nor a list is a TypeError in the
  model, as in Python for numbers and None. A dict would be a KeyError in Python, but it is
  the same `TypeError` here.
- `progress_callback` is left out; it is user-interface plumbing.
- `SolverAgent._try_symbolic_solve` is left out: `solve` never calls it, and it needs sympy.
- The recognition backends (whisper, pytesseract, easyocr) are left out. Their outputs are
  given as datatypes (`Audio.WhisperRun`, `Ocr.TesseractRun`, `Ocr.EasyRun`), and an
  exception they raise is a `Failed` value carrying its message.
- Ocr.KeptWordsMembers: the confidences are taken as the integers that `int(c)` gives. A
  confidence that `int()` cannot parse, which would raise, is not modelled.
- app.py, populate_knowledge_base.py and the settings lookup of config.py are not part of this
  model. The thresholds 0.6, 0.7 and 0.75 and `TOP_K_RETRIEVAL` = 5 are default parameters.

## Findings

| source | as written | input that shows it | evidently intended | confidence | as-written member | corrected member |
|---|---|---|---|---|---|---|
| utils/audio.py:61-62 | "sine of" is replaced before "cosine of", and "cosine of" contains "sine of" | `normalize_math_speech("cosine of")` gives "cosin(" | "cos(", as the table's "cosine of" entry says | high; not executed | Audio.CosineShadowed | Audio.CosineNormalized |
