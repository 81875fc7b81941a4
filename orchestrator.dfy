/** orchestrator.py: the pipeline controller. A run refreshes the parser's correction patterns
    from memory, parses the input (or takes a reviewer's parsed problem), and then either halts
    for clarification or routes, retrieves, looks up similar solved problems, solves, verifies,
    explains and stores the run as a new memory record, with one trace step per agent. */
module Orchestration {
  import opened Json
  import opened Text
  import opened Lists
  import opened Llm
  import opened Memory
  import opened Parser
  import opened Router
  import opened Solver
  import opened Verifier
  import Rag

  /** One trace entry: `{"agent": ..., "status": ..., "summary": ..., "data": ...}`. */
  datatype Step = Step(agent: string, status: string, summary: string, data: Json)

  const Done: string := "\U{2705} done"
  const Issues: string := "\U{26A0}\U{FE0F} issues"
  const NoneFound: string := "\U{2139}\U{FE0F} none"

  /** The entry `add` appends: falsy data is replaced by `{}`. */
  function StepOf(agent: string, status: string, summary: string, data: Json): (s: Step)
    ensures s.agent == agent && s.status == status && s.summary == summary
    ensures Truthy(data) ==> s.data == data
    ensures !Truthy(data) ==> s.data == EmptyObject
  {
    Step(agent, status, summary, if Truthy(data) then data else EmptyObject)
  }

  /** `AgentTrace`: the list of steps of one run. */
  class AgentTrace {
    var steps: seq<Step>

    constructor()
      ensures steps == []
    {
      steps := [];
    }

    /** `add`: exactly one entry is appended at the end; the earlier entries stay as they were. */
    method Add(agent: string, status: string, summary: string, data: Json := JNull)
      modifies this
      ensures steps == old(steps) + [StepOf(agent, status, summary, data)]
    {
      var entry := Step(agent, status, summary, if Truthy(data) then data else EmptyObject);
      steps := steps + [entry];
    }

    /** `to_list`: the steps themselves, not a copy. */
    function ToList(): seq<Step>
      reads this
    {
      steps
    }
  }

  /** The result dict of `run`. */
  datatype RunResult = RunResult(
    trace: seq<Step>,
    parsedProblem: Json,
    routeInfo: Json,
    retrievedChunks: seq<Rag.Retrieved>,
    context: string,
    solution: Json,
    verification: Json,
    explanation: string,
    finalAnswer: Json,
    confidence: Json,
    needsHitl: bool,
    hitlReason: Json,
    recordId: Option<string>,
    similarProblems: seq<Record>)

  /** The result dict `run` starts from. */
  function Initial(): RunResult
  {
    RunResult([], EmptyObject, EmptyObject, [], "", EmptyObject, EmptyObject, "", JStr(""),
              JNum(0.0), false, JStr(""), None, [])
  }

  /** What a run returns, and the memory record it stores (none when it halts). */
  datatype Run = Run(result: RunResult, stored: Option<Record>)

  /** `hitl_override` is truthy: given and not empty. */
  predicate OverrideGiven(o: Option<map<string, Json>>)
  {
    o.Some? && o.value != map[]
  }

  /** The override carries a truthy `parsed_problem`. */
  predicate OverrideParsed(o: Option<map<string, Json>>)
  {
    OverrideGiven(o) && Truthy(Get(o.value, "parsed_problem", JNull))
  }

  /** The collaborators behave for every query the pipeline may retrieve for. */
  ghost predicate AllQueriesFit(st: Rag.Store, num: Rag.Numerics)
  {
    forall q :: Rag.NumericsFit(st, q, Rag.TopKRetrieval, num)
  }

  /** The parsed problem: the override's, or the parser's result for the corrected text. */
  function ParsedProblem(patterns: seq<CorrectionPattern>, rawInput: string, inputType: string,
                         o: Option<map<string, Json>>, caps: Capabilities): Json
  {
    if OverrideParsed(o) then o.value["parsed_problem"]
    else
      var corrected := ApplyPatterns(rawInput, patterns);
      ParseOutcome(corrected, ParseJsonResponse(caps.parser(inputType, corrected), caps.loads))
  }

  const NotSubscriptable := TypeError("object is not subscriptable")

  /** `value[:n]` placed in an f-string: a string's first n characters, a list's first n items
      shown with `str()`; anything else cannot be sliced. */
  function Prefix(j: Json, n: nat, caps: Capabilities): (r: Result<string>)
    ensures r.Ok? <==> j.JStr? || j.JArr?
    ensures j.JStr? ==> r.Ok? && |r.value| <= n && r.value <= j.s
    ensures j.JStr? && |j.s| <= n ==> r == Ok(j.s)
    ensures r.Err? ==> r.error == NotSubscriptable
  {
    match j
    case JStr(s) => assert s[..|s|] == s; Ok(Take(s, n))
    case JArr(items) => Ok(caps.show(JArr(Take(items, n))))
    case _ => Err(NotSubscriptable)
  }

  function ParserStep(p: map<string, Json>, caps: Capabilities): Step
  {
    StepOf("ParserAgent", Done, "Topic: " + Display(Get(p, "topic", JNull), caps)
      + ", Needs clarification: " + Display(Get(p, "needs_clarification", JNull), caps), JObj(p))
  }

  function RouterStep(route: Json, strategy: string): Step
  {
    StepOf("IntentRouterAgent", Done, "Strategy: " + strategy, route)
  }

  function RagStep(chunks: seq<Rag.Retrieved>): Step
  {
    StepOf("RAGPipeline", Done, "Retrieved " + Decimal(|chunks|) + " relevant chunks",
      JObj(map["num_chunks" := JNum(|chunks| as real)]))
  }

  function MemoryStep(similar: seq<Record>): Step
  {
    if similar != [] then StepOf("MemoryStore", Done, "Found " + Decimal(|similar|) + " similar solved problems", JNull)
    else StepOf("MemoryStore", NoneFound, "No similar problems found in memory", JNull)
  }

  function SolverStep(solution: Json, answer: string): Step
  {
    StepOf("SolverAgent", Done, "Answer: " + answer, solution)
  }

  function VerifierStep(verification: Json, caps: Capabilities): Step
    requires verification.JObj? && AsNumber(Get(verification.fields, "confidence", JNum(0.0))).Some?
  {
    var vf := verification.fields;
    StepOf("VerifierAgent", if Truthy(Get(vf, "is_correct", JNull)) then Done else Issues,
      "Correct: " + Display(Get(vf, "is_correct", JNull), caps) + ", Confidence: "
        + caps.fixed2(AsNumber(Get(vf, "confidence", JNum(0.0))).value), verification)
  }

  function ExplainerStep(): Step
  {
    StepOf("ExplainerAgent", Done, "Explanation generated", JNull)
  }

  /** The parser asked for clarification and no override was given. */
  predicate Halts(p: map<string, Json>, o: Option<map<string, Json>>)
  {
    Truthy(Get(p, "needs_clarification", JNull)) && !OverrideGiven(o)
  }

  /** What `run` returns for a halted run. */
  function Halted(p: map<string, Json>, caps: Capabilities): RunResult
  {
    Initial().(trace := [ParserStep(p, caps)], parsedProblem := JObj(p), needsHitl := true,
      hitlReason := JStr("Parser: " + Display(Get(p, "clarification_reason", JStr("Ambiguous problem")), caps)))
  }

  /** The agents as `run` calls them, each as a function of what it is given: routing,
      retrieval for a query, the memory lookup for a query and a topic, solving, verification
      and explanation. */
  datatype Agents = Agents(
    route: map<string, Json> -> Json,
    retrieve: string -> Result<seq<Rag.Retrieved>>,
    similar: (string, Json) -> Result<seq<Record>>,
    solve: (map<string, Json>, Json, string, seq<Record>) -> Json,
    verify: (map<string, Json>, Json, string) -> Result<Json>,
    explain: (Json, Json, Json) -> string)

  /** A verification the trace line can read: a dict whose confidence (0 when missing) formats
      with ".2f". */
  predicate Readable(v: Json)
  {
    v.JObj? && AsNumber(Get(v.fields, "confidence", JNum(0.0))).Some?
  }

  /** Every verification the verifier returns is readable. */
  ghost predicate ReadableVerifications(a: Agents)
  {
    forall p, s, c :: a.verify(p, s, c).Ok? ==> Readable(a.verify(p, s, c).value)
  }

  /** The agents of this model: the router, the retrieval of `RAGPipeline` over its current
      state, `find_similar` over the memory records, the solver and the verifier with their
      language-model replies decoded, and the explainer. */
  function ModelAgents(records: seq<Record>, st: Rag.Store, caps: Capabilities, num: Rag.Numerics): (a: Agents)
    requires AllQueriesFit(st, num)
    ensures ReadableVerifications(a)
  {
    var a := Agents(
      p => Route(p, caps),
      q => Rag.Retrieval(st, q, Rag.TopKRetrieval, num),
      (q, topic) => Similar(records, q, topic, DefaultTopK),
      (p, route, context, similar) => SolveOutcome(ParseJsonResponse(
        caps.solver(JObj(p), route, context, SimilarContext(similar, caps)), caps.loads)),
      (p, solution, context) => VerifyOutcome(ParseJsonResponse(
        caps.verifier(JObj(p), solution, context), caps.loads), DefaultVerifierThreshold, caps),
      caps.explainer);
    assert ReadableVerifications(a) by {
      forall p, s, c | a.verify(p, s, c).Ok?
        ensures Readable(a.verify(p, s, c).value)
      {
        var decoded := ParseJsonResponse(caps.verifier(JObj(p), s, c), caps.loads);
        GateOkShape(if Truthy(decoded) then decoded else JObj(VerifierFallback()), DefaultVerifierThreshold, caps);
      }
    }
    a
  }

  /** The router agent routes as `IntentRouterAgent.route` does. */
  ghost predicate RoutesAs(a: Agents, caps: Capabilities)
  {
    forall p :: a.route(p) == Route(p, caps)
  }

  /** Retrieval is `RAGPipeline.retrieve` over the given state, for every query. */
  ghost predicate RetrievesAs(a: Agents, st: Rag.Store, num: Rag.Numerics)
  {
    forall q :: Rag.NumericsFit(st, q, Rag.TopKRetrieval, num)
      && a.retrieve(q) == Rag.Retrieval(st, q, Rag.TopKRetrieval, num)
  }

  /** The memory lookup is `find_similar` over the given records. */
  ghost predicate RecallsAs(a: Agents, records: seq<Record>)
  {
    forall q, topic :: a.similar(q, topic) == Similar(records, q, topic, DefaultTopK)
  }

  /** The solver decodes its language model's reply as `SolverAgent.solve` does. */
  ghost predicate SolvesAs(a: Agents, caps: Capabilities)
  {
    forall p, route, context, similar :: a.solve(p, route, context, similar) == SolveOutcome(ParseJsonResponse(
      caps.solver(JObj(p), route, context, SimilarContext(similar, caps)), caps.loads))
  }

  /** The verifier decodes its language model's reply and applies the default threshold. */
  ghost predicate VerifiesAs(a: Agents, caps: Capabilities)
  {
    forall p, s, c :: a.verify(p, s, c) == VerifyOutcome(ParseJsonResponse(
      caps.verifier(JObj(p), s, c), caps.loads), DefaultVerifierThreshold, caps)
  }

  /** The agents behave as this model's agents do, for every input. */
  ghost predicate Models(a: Agents, records: seq<Record>, st: Rag.Store, caps: Capabilities, num: Rag.Numerics)
  {
    && RoutesAs(a, caps)
    && RetrievesAs(a, st, num)
    && RecallsAs(a, records)
    && SolvesAs(a, caps)
    && VerifiesAs(a, caps)
    && a.explain == caps.explainer
  }

  lemma ModelAgentsModel(records: seq<Record>, st: Rag.Store, caps: Capabilities, num: Rag.Numerics)
    requires AllQueriesFit(st, num)
    ensures Models(ModelAgents(records, st, caps, num), records, st, caps, num)
  {
  }

  /** `run` after parsing, for the parsed problem and the agents. */
  function Pipeline(parsed: Json, a: Agents, rawInput: string, inputType: string,
                    o: Option<map<string, Json>>, caps: Capabilities, id: string, timestamp: string): Result<Run>
    requires ReadableVerifications(a)
  {
    if !parsed.JObj? then Err(NoGet)
    else if Halts(parsed.fields, o) then Ok(Run(Halted(parsed.fields, caps), None))
    else Advance(Routing([ParserStep(parsed.fields, caps)]), parsed.fields, a, rawInput, inputType, o, caps, id,
                 timestamp)
  }

  /** The whole of `run`, given the memory records, the refreshed correction patterns, the
      retrieval state, the new record's id and timestamp, and the collaborators. */
  function Outcome(records: seq<Record>, patterns: seq<CorrectionPattern>, st: Rag.Store,
                   rawInput: string, inputType: string, o: Option<map<string, Json>>,
                   caps: Capabilities, num: Rag.Numerics, id: string, timestamp: string): Result<Run>
    requires AllQueriesFit(st, num)
  {
    Pipeline(ParsedProblem(patterns, rawInput, inputType, o, caps), ModelAgents(records, st, caps, num),
             rawInput, inputType, o, caps, id, timestamp)
  }

  /** Where a run past the clarification check stands, with the trace so far: routing, retrieval
      for the problem text, the memory lookup for the same query, solving, and the verification,
      explanation and stored record that conclude it. */
  datatype Stage =
    | Routing(trace: seq<Step>)
    | Retrieving(route: Json, trace: seq<Step>)
    | Recalling(route: Json, query: string, chunks: seq<Rag.Retrieved>, trace: seq<Step>)
    | Solving(route: Json, chunks: seq<Rag.Retrieved>, similar: seq<Record>, trace: seq<Step>)
    | Concluding(route: Json, chunks: seq<Rag.Retrieved>, similar: seq<Record>, solution: Json, trace: seq<Step>)

  /** The number of agents still to run from a stage. */
  function Remaining(stage: Stage): nat
  {
    match stage
    case Routing(_) => 6
    case Retrieving(_, _) => 5
    case Recalling(_, _, _, _) => 4
    case Solving(_, _, _, _) => 3
    case Concluding(_, _, _, _, _) => 2
  }

  /** The rest of `run` from a stage. The route must be a dict whose strategy can be sliced,
      the problem text (the raw input by default) a string, and the solution a dict whose answer
      can be sliced; every agent's exception ends the run. */
  function Advance(stage: Stage, p: map<string, Json>, a: Agents, rawInput: string, inputType: string,
                   o: Option<map<string, Json>>, caps: Capabilities, id: string, timestamp: string): Result<Run>
    requires ReadableVerifications(a)
    requires stage.Concluding? ==> stage.solution.JObj?
    decreases Remaining(stage)
  {
    match stage
    case Routing(trace) =>
      var route := a.route(p);
      if !route.JObj? then Err(NoGet)
      else
        var strategy := Prefix(Get(route.fields, "solution_strategy", JStr("")), 80, caps);
        if strategy.Err? then Err(strategy.error)
        else Advance(Retrieving(route, trace + [RouterStep(route, strategy.value)]),
                     p, a, rawInput, inputType, o, caps, id, timestamp)
    case Retrieving(route, trace) =>
      var query := Get(p, "problem_text", JStr(rawInput));
      if !query.JStr? then Err(NoLower)
      else
        var retrieved := a.retrieve(query.s);
        if retrieved.Err? then Err(retrieved.error)
        else Advance(Recalling(route, query.s, retrieved.value, trace + [RagStep(retrieved.value)]),
                     p, a, rawInput, inputType, o, caps, id, timestamp)
    case Recalling(route, query, chunks, trace) =>
      var similar := a.similar(query, Get(p, "topic", JStr("")));
      if similar.Err? then Err(similar.error)
      else Advance(Solving(route, chunks, similar.value, trace + [MemoryStep(similar.value)]),
                   p, a, rawInput, inputType, o, caps, id, timestamp)
    case Solving(route, chunks, similar, trace) =>
      var solution := a.solve(p, route, Rag.ContextOf(chunks), similar);
      if !solution.JObj? then Err(NoGet)
      else
        var answer := Prefix(Get(solution.fields, "answer", JStr("")), 60, caps);
        if answer.Err? then Err(answer.error)
        else Advance(Concluding(route, chunks, similar, solution, trace + [SolverStep(solution, answer.value)]),
                     p, a, rawInput, inputType, o, caps, id, timestamp)
    case Concluding(route, chunks, similar, solution, trace) =>
      var context := Rag.ContextOf(chunks);
      var verified := a.verify(p, solution, context);
      if verified.Err? then Err(verified.error)
      else
        var verification := verified.value;
        var vf := verification.fields;
        var review := Truthy(Get(vf, "needs_hitl", JNull)) && !OverrideGiven(o);
        var explanation := a.explain(JObj(p), solution, verification);
        var finalAnswer := Get(solution.fields, "answer", JStr(""));
        var result := RunResult(trace + [VerifierStep(verification, caps)] + [ExplainerStep()], JObj(p), route,
          chunks, context, solution, verification, explanation, finalAnswer,
          Get(vf, "confidence", Get(solution.fields, "confidence", JNum(0.5))), review,
          if review then Get(vf, "hitl_reason", JStr("Low confidence")) else JStr(""), Some(id), similar);
        Ok(Run(result, Some(Record(id, timestamp, inputType, rawInput, p, chunks, finalAnswer, explanation,
          verification, None, None))))
  }

  /** The agents of a trace, in order. */
  function AgentNames(trace: seq<Step>): (r: seq<string>)
    ensures |r| == |trace|
  {
    seq(|trace|, i requires 0 <= i < |trace| => trace[i].agent)
  }

  const PipelineOrder: seq<string> := ["ParserAgent", "IntentRouterAgent", "RAGPipeline", "MemoryStore",
    "SolverAgent", "VerifierAgent", "ExplainerAgent"]

  /** With a truthy parsed problem in the override, the parser is bypassed: the parsed problem
      depends neither on the input, the correction patterns nor the model. Either way it is
      truthy. */
  lemma OverrideBypassesParser(patterns: seq<CorrectionPattern>, rawInput: string, inputType: string,
                               o: Option<map<string, Json>>, caps: Capabilities,
                               patterns': seq<CorrectionPattern>, rawInput': string, inputType': string,
                               caps': Capabilities)
    ensures OverrideParsed(o) ==>
      ParsedProblem(patterns, rawInput, inputType, o, caps) == ParsedProblem(patterns', rawInput', inputType', o, caps')
    ensures Truthy(ParsedProblem(patterns, rawInput, inputType, o, caps))
  {
    if !OverrideParsed(o) {
      var corrected := ApplyPatterns(rawInput, patterns);
      ParseOutcomeProperties(corrected, ParseJsonResponse(caps.parser(inputType, corrected), caps.loads));
    }
  }

  /** A parsed problem asking for clarification, without an override, ends the run: it goes to
      review for the parser's reason (by default "Ambiguous problem"), only the parser's step is
      traced, and nothing is solved or stored. A parsed problem that is not a dict raises. */
  lemma HaltForClarification(parsed: Json, a: Agents, rawInput: string, inputType: string,
                             o: Option<map<string, Json>>, caps: Capabilities, id: string, timestamp: string)
    requires ReadableVerifications(a)
    ensures !parsed.JObj? ==> Pipeline(parsed, a, rawInput, inputType, o, caps, id, timestamp) == Err(NoGet)
    ensures var out := Pipeline(parsed, a, rawInput, inputType, o, caps, id, timestamp);
      parsed.JObj? && Halts(parsed.fields, o) ==>
        && out.Ok? && out.value.stored.None?
        && var r := out.value.result;
        && r.needsHitl && r.recordId.None?
        && r.hitlReason == JStr("Parser: " + Display(Get(parsed.fields, "clarification_reason",
             JStr("Ambiguous problem")), caps))
        && r.parsedProblem == parsed
        && AgentNames(r.trace) == ["ParserAgent"]
        && r.solution == EmptyObject && r.verification == EmptyObject && r.retrievedChunks == []
        && r.finalAnswer == JStr("")
  {
  }

  /** A completed run as returned and as stored: the record carries the given id and
      timestamp, no feedback, the parsed problem, the retrieved chunks, the solution's answer,
      the explanation and the verification that the result shows; the confidence is the
      verifier's, else the solver's, else 0.5; and the run goes to review exactly when the
      verifier asks for it and no override was given. */
  predicate Completed(out: Run, p: map<string, Json>, rawInput: string, inputType: string,
                      o: Option<map<string, Json>>, id: string, timestamp: string)
  {
    var r := out.result;
    && out.stored.Some?
    && var rec := out.stored.value;
    && r.recordId == Some(id)
    && rec.id == id && rec.timestamp == timestamp
    && rec.inputType == inputType && rec.rawInput == rawInput
    && rec.userFeedback.None? && rec.reviewerComment.None?
    && r.parsedProblem == JObj(p) && rec.parsedQuestion == p
    && r.solution.JObj? && r.verification.JObj?
    && r.finalAnswer == Get(r.solution.fields, "answer", JStr("")) && rec.finalAnswer == r.finalAnswer
    && rec.retrievedContext == r.retrievedChunks && r.context == Rag.ContextOf(r.retrievedChunks)
    && rec.explanation == r.explanation && rec.verifierOutcome == r.verification
    && r.confidence == (if "confidence" in r.verification.fields then r.verification.fields["confidence"]
                        else if "confidence" in r.solution.fields then r.solution.fields["confidence"]
                        else JNum(0.5))
    && (r.needsHitl <==> Truthy(Get(r.verification.fields, "needs_hitl", JNull)) && !OverrideGiven(o))
    && (r.needsHitl ==> r.hitlReason == Get(r.verification.fields, "hitl_reason", JStr("Low confidence")))
  }

  lemma AgentNamesSnoc(trace: seq<Step>, step: Step)
    ensures AgentNames(trace + [step]) == AgentNames(trace) + [step.agent]
  {
  }

  /** The last stage appends the verifier's and the explainer's steps and stores the run. */
  lemma ConcludedRun(route: Json, chunks: seq<Rag.Retrieved>, similar: seq<Record>, solution: Json, trace: seq<Step>,
                     p: map<string, Json>, a: Agents, rawInput: string, inputType: string,
                     o: Option<map<string, Json>>, caps: Capabilities, id: string, timestamp: string)
    requires ReadableVerifications(a)
    requires solution.JObj?
    requires Advance(Concluding(route, chunks, similar, solution, trace), p, a, rawInput, inputType, o, caps, id, timestamp).Ok?
    ensures var out := Advance(Concluding(route, chunks, similar, solution, trace), p, a, rawInput, inputType, o, caps, id, timestamp).value;
      && Completed(out, p, rawInput, inputType, o, id, timestamp)
      && AgentNames(out.result.trace) == AgentNames(trace) + ["VerifierAgent", "ExplainerAgent"]
  {
    var v := a.verify(p, solution, Rag.ContextOf(chunks)).value;
    AgentNamesSnoc(trace, VerifierStep(v, caps));
    AgentNamesSnoc(trace + [VerifierStep(v, caps)], ExplainerStep());
  }

  /** Solving appends the solver's step before the last stage. */
  lemma SolvedRun(route: Json, chunks: seq<Rag.Retrieved>, similar: seq<Record>, trace: seq<Step>,
                  p: map<string, Json>, a: Agents, rawInput: string, inputType: string,
                  o: Option<map<string, Json>>, caps: Capabilities, id: string, timestamp: string)
    requires ReadableVerifications(a)
    requires Advance(Solving(route, chunks, similar, trace), p, a, rawInput, inputType, o, caps, id, timestamp).Ok?
    ensures var out := Advance(Solving(route, chunks, similar, trace), p, a, rawInput, inputType, o, caps, id, timestamp).value;
      && Completed(out, p, rawInput, inputType, o, id, timestamp)
      && AgentNames(out.result.trace) == AgentNames(trace) + ["SolverAgent", "VerifierAgent", "ExplainerAgent"]
  {
    var solution := a.solve(p, route, Rag.ContextOf(chunks), similar);
    var step := SolverStep(solution, Prefix(Get(solution.fields, "answer", JStr("")), 60, caps).value);
    AgentNamesSnoc(trace, step);
    ConcludedRun(route, chunks, similar, solution, trace + [step], p, a, rawInput, inputType, o, caps, id, timestamp);
  }

  /** The memory lookup appends its step before solving. */
  lemma RecalledRun(route: Json, query: string, chunks: seq<Rag.Retrieved>, trace: seq<Step>,
                    p: map<string, Json>, a: Agents, rawInput: string, inputType: string,
                    o: Option<map<string, Json>>, caps: Capabilities, id: string, timestamp: string)
    requires ReadableVerifications(a)
    requires Advance(Recalling(route, query, chunks, trace), p, a, rawInput, inputType, o, caps, id, timestamp).Ok?
    ensures var out := Advance(Recalling(route, query, chunks, trace), p, a, rawInput, inputType, o, caps, id, timestamp).value;
      && Completed(out, p, rawInput, inputType, o, id, timestamp)
      && AgentNames(out.result.trace) == AgentNames(trace) + ["MemoryStore", "SolverAgent", "VerifierAgent", "ExplainerAgent"]
  {
    var similar := a.similar(query, Get(p, "topic", JStr(""))).value;
    AgentNamesSnoc(trace, MemoryStep(similar));
    SolvedRun(route, chunks, similar, trace + [MemoryStep(similar)], p, a, rawInput, inputType, o, caps, id, timestamp);
  }

  /** Retrieval appends its step before the memory lookup. */
  lemma RetrievedRun(route: Json, trace: seq<Step>,
                     p: map<string, Json>, a: Agents, rawInput: string, inputType: string,
                     o: Option<map<string, Json>>, caps: Capabilities, id: string, timestamp: string)
    requires ReadableVerifications(a)
    requires Advance(Retrieving(route, trace), p, a, rawInput, inputType, o, caps, id, timestamp).Ok?
    ensures var out := Advance(Retrieving(route, trace), p, a, rawInput, inputType, o, caps, id, timestamp).value;
      && Completed(out, p, rawInput, inputType, o, id, timestamp)
      && AgentNames(out.result.trace) == AgentNames(trace) + ["RAGPipeline", "MemoryStore", "SolverAgent", "VerifierAgent", "ExplainerAgent"]
  {
    var query := Get(p, "problem_text", JStr(rawInput));
    var chunks := a.retrieve(query.s).value;
    AgentNamesSnoc(trace, RagStep(chunks));
    RecalledRun(route, query.s, chunks, trace + [RagStep(chunks)], p, a, rawInput, inputType, o, caps, id, timestamp);
  }

  /** Routing appends the router's step before retrieval. */
  lemma RoutedRun(trace: seq<Step>,
                  p: map<string, Json>, a: Agents, rawInput: string, inputType: string,
                  o: Option<map<string, Json>>, caps: Capabilities, id: string, timestamp: string)
    requires ReadableVerifications(a)
    requires Advance(Routing(trace), p, a, rawInput, inputType, o, caps, id, timestamp).Ok?
    ensures var out := Advance(Routing(trace), p, a, rawInput, inputType, o, caps, id, timestamp).value;
      && Completed(out, p, rawInput, inputType, o, id, timestamp)
      && AgentNames(out.result.trace) == AgentNames(trace) + PipelineOrder[1..]
  {
    var route := a.route(p);
    var step := RouterStep(route, Prefix(Get(route.fields, "solution_strategy", JStr("")), 80, caps).value);
    AgentNamesSnoc(trace, step);
    RetrievedRun(route, trace + [step], p, a, rawInput, inputType, o, caps, id, timestamp);
  }

  /** A run that raises nothing stores a record exactly when it does not halt for clarification,
      and then it is completed, whatever the verifier said, with one step per agent in pipeline
      order. */
  lemma CompletedRun(parsed: Json, a: Agents, rawInput: string, inputType: string,
                     o: Option<map<string, Json>>, caps: Capabilities, id: string, timestamp: string)
    requires ReadableVerifications(a)
    requires Pipeline(parsed, a, rawInput, inputType, o, caps, id, timestamp).Ok?
    ensures var out := Pipeline(parsed, a, rawInput, inputType, o, caps, id, timestamp).value;
      && parsed.JObj?
      && (out.stored.None? <==> Halts(parsed.fields, o))
      && (out.stored.Some? ==>
            Completed(out, parsed.fields, rawInput, inputType, o, id, timestamp)
            && AgentNames(out.result.trace) == PipelineOrder)
  {
    if !Halts(parsed.fields, o) {
      RoutedRun([ParserStep(parsed.fields, caps)], parsed.fields, a, rawInput, inputType, o, caps, id, timestamp);
    }
  }

  /** With an override, a run that raises nothing never asks for review. */
  lemma OverrideNeverReviews(parsed: Json, a: Agents, rawInput: string, inputType: string,
                             o: Option<map<string, Json>>, caps: Capabilities, id: string, timestamp: string)
    requires ReadableVerifications(a)
    requires OverrideGiven(o)
    requires Pipeline(parsed, a, rawInput, inputType, o, caps, id, timestamp).Ok?
    ensures !Pipeline(parsed, a, rawInput, inputType, o, caps, id, timestamp).value.result.needsHitl
  {
    CompletedRun(parsed, a, rawInput, inputType, o, caps, id, timestamp);
  }

  /** A run that stores a record keeps the memory's ids unique when the new id is not in use. */
  lemma OutcomeKeepsIdsUnique(records: seq<Record>, patterns: seq<CorrectionPattern>, st: Rag.Store,
                              rawInput: string, inputType: string, o: Option<map<string, Json>>,
                              caps: Capabilities, num: Rag.Numerics, id: string, timestamp: string)
    requires AllQueriesFit(st, num)
    requires IdsUnique(records)
    requires forall i :: 0 <= i < |records| ==> records[i].id != id
    ensures var out := Outcome(records, patterns, st, rawInput, inputType, o, caps, num, id, timestamp);
      out.Ok? && out.value.stored.Some? ==> IdsUnique(records + [out.value.stored.value])
  {
    var out := Outcome(records, patterns, st, rawInput, inputType, o, caps, num, id, timestamp);
    if out.Ok? && out.value.stored.Some? {
      var parsed := ParsedProblem(patterns, rawInput, inputType, o, caps);
      CompletedRun(parsed, ModelAgents(records, st, caps, num), rawInput, inputType, o, caps, id, timestamp);
      var rs := records + [out.value.stored.value];
      forall i, j | 0 <= i < j < |rs|
        ensures rs[i].id != rs[j].id
      {
        if j == |records| {
          assert rs[j].id == id;
        }
      }
    }
  }

  /** What a method returns and how the memory records and their saved copy change, as the
      outcome says: an exception or a halt leaves them as they were, a completed run appends the
      one record it stores and saves. */
  predicate Reflects(out: Result<Run>, r: Result<RunResult>, before: seq<Record>, after: seq<Record>,
                     savedBefore: seq<Record>, savedAfter: seq<Record>)
  {
    match out
    case Err(e) => r == Err(e) && after == before && savedAfter == savedBefore
    case Ok(run) =>
      && r == Ok(run.result)
      && (run.stored.None? ==> after == before && savedAfter == savedBefore)
      && (run.stored.Some? ==> after == before + [run.stored.value] && savedAfter == after)
  }

  /** `Orchestrator`: the agents with state (retrieval, memory, parser). The router, solver,
      verifier and explainer keep no state and are reached through the capabilities. */
  class Orchestrator {
    const rag: Rag.RAGPipeline
    const memory: MemoryStore
    const parser: ParserAgent

    /** `__init__`. */
    constructor(persisted: Option<Rag.Persisted>, kb: Option<map<string, string>>, num: Rag.Numerics,
                faissAvailable: bool, db: Option<seq<Record>>)
      ensures fresh(rag) && fresh(memory) && fresh(parser)
      ensures memory.records == (if db.Some? then db.value else [])
      ensures parser.correctionPatterns == []
    {
      rag := new Rag.RAGPipeline(persisted, kb, num, faissAvailable);
      memory := new MemoryStore(db);
      parser := new ParserAgent(None);
    }

    /** `_refresh_parser_corrections`: the parser gets memory's last ten patterns for the input type. */
    method RefreshParserCorrections(inputType: string)
      modifies parser
      ensures parser.correctionPatterns == TakeLast(PatternsOf(memory.records, inputType), PatternWindow)
    {
      var patterns := memory.GetCorrectionPatterns(inputType);
      parser.correctionPatterns := patterns;
    }

    /** `run`: the correction patterns are refreshed before parsing; the memory changes only
        when the run completes, by the one record it stores. */
    method Run(rawInput: string, inputType: string, hitlOverride: Option<map<string, Json>>,
               caps: Capabilities, num: Rag.Numerics, id: string, timestamp: string)
      returns (r: Result<RunResult>)
      requires AllQueriesFit(rag.Current(), num)
      requires forall i :: 0 <= i < |memory.records| ==> memory.records[i].id != id
      modifies memory, parser
      ensures parser.correctionPatterns == TakeLast(PatternsOf(old(memory.records), inputType), PatternWindow)
      ensures Reflects(Outcome(old(memory.records), parser.correctionPatterns, old(rag.Current()), rawInput,
                               inputType, hitlOverride, caps, num, id, timestamp),
                       r, old(memory.records), memory.records, old(memory.saved), memory.saved)
    {
      RefreshParserCorrections(inputType);

      var parsed: Json;
      if hitlOverride.Some? && hitlOverride.value != map[] && Truthy(Get(hitlOverride.value, "parsed_problem", JNull)) {
        parsed := hitlOverride.value["parsed_problem"];
      } else {
        parsed := parser.Parse(rawInput, caps, inputType);
      }
      ghost var a := ModelAgents(memory.records, rag.Current(), caps, num);
      ModelAgentsModel(memory.records, rag.Current(), caps, num);
      r := ParsedStage(parsed, rawInput, inputType, hitlOverride, caps, num, id, timestamp, a);
    }

    /** Lines 44-61 and 74-81 of `run`: the trace and the result start empty, the parser's step is
        traced, and a problem that needs clarification halts the run unless an override is given. */
    method ParsedStage(parsed: Json, rawInput: string, inputType: string, hitlOverride: Option<map<string, Json>>,
                       caps: Capabilities, num: Rag.Numerics, id: string, timestamp: string, ghost a: Agents)
      returns (r: Result<RunResult>)
      requires Models(a, memory.records, rag.Current(), caps, num) && ReadableVerifications(a)
      requires forall i :: 0 <= i < |memory.records| ==> memory.records[i].id != id
      modifies memory
      ensures Reflects(Pipeline(parsed, a, rawInput, inputType, hitlOverride, caps, id, timestamp),
                       r, old(memory.records), memory.records, old(memory.saved), memory.saved)
    {
      var trace := new AgentTrace();
      var result := Initial();
      if !parsed.JObj? {
        return Err(NoGet);
      }
      var p := parsed.fields;
      trace.Add("ParserAgent", Done, "Topic: " + Display(Get(p, "topic", JNull), caps)
        + ", Needs clarification: " + Display(Get(p, "needs_clarification", JNull), caps), parsed);
      result := result.(parsedProblem := parsed);

      if Truthy(Get(p, "needs_clarification", JNull)) && !OverrideGiven(hitlOverride) {
        result := result.(needsHitl := true,
          hitlReason := JStr("Parser: " + Display(Get(p, "clarification_reason", JStr("Ambiguous problem")), caps)));
        var steps := trace.ToList();
        result := result.(trace := steps);
        assert result == Halted(p, caps);
        return Ok(result);
      }
      assert trace.steps == [ParserStep(p, caps)];
      r := RouteStage(p, trace, result, rawInput, inputType, hitlOverride, caps, num, id, timestamp, a);
    }

    /** Lines 83-86 of `run`: routing, traced with the strategy's first 80 characters. */
    method RouteStage(p: map<string, Json>, trace: AgentTrace, result: RunResult, rawInput: string,
                      inputType: string, hitlOverride: Option<map<string, Json>>,
                      caps: Capabilities, num: Rag.Numerics, id: string, timestamp: string, ghost a: Agents)
      returns (r: Result<RunResult>)
      requires Models(a, memory.records, rag.Current(), caps, num) && ReadableVerifications(a)
      requires forall i :: 0 <= i < |memory.records| ==> memory.records[i].id != id
      requires result == Initial().(parsedProblem := JObj(p))
      modifies memory, trace
      ensures Reflects(Advance(Routing(old(trace.steps)), p, a, rawInput, inputType, hitlOverride, caps, id, timestamp),
                       r, old(memory.records), memory.records, old(memory.saved), memory.saved)
    {
      var routeInfo := Route(p, caps);
      if !routeInfo.JObj? {
        return Err(NoGet);
      }
      var strategy := Prefix(Get(routeInfo.fields, "solution_strategy", JStr("")), 80, caps);
      if strategy.Err? {
        return Err(strategy.error);
      }
      trace.Add("IntentRouterAgent", Done, "Strategy: " + strategy.value, routeInfo);
      var result := result.(routeInfo := routeInfo);
      r := RetrieveStage(p, routeInfo, trace, result, rawInput, inputType, hitlOverride, caps, num, id,
                         timestamp, a);
    }

    /** Lines 88-92 of `run`: retrieval for the problem text, traced with the number of chunks. */
    method RetrieveStage(p: map<string, Json>, routeInfo: Json, trace: AgentTrace, result: RunResult,
                         rawInput: string, inputType: string, hitlOverride: Option<map<string, Json>>,
                         caps: Capabilities, num: Rag.Numerics, id: string, timestamp: string, ghost a: Agents)
      returns (r: Result<RunResult>)
      requires RetrievesAs(a, rag.Current(), num) && RecallsAs(a, memory.records)
      requires SolvesAs(a, caps) && VerifiesAs(a, caps) && a.explain == caps.explainer && ReadableVerifications(a)
      requires forall i :: 0 <= i < |memory.records| ==> memory.records[i].id != id
      requires result == Initial().(parsedProblem := JObj(p), routeInfo := routeInfo)
      modifies memory, trace
      ensures Reflects(Advance(Retrieving(routeInfo, old(trace.steps)), p, a, rawInput, inputType, hitlOverride,
                               caps, id, timestamp),
                       r, old(memory.records), memory.records, old(memory.saved), memory.saved)
    {
      var query := Get(p, "problem_text", JStr(rawInput));
      if !query.JStr? {
        return Err(NoLower);
      }
      var got := rag.GetContextString(query.s, num);
      if got.Err? {
        return Err(got.error);
      }
      var (context, chunks) := got.value;
      trace.Add("RAGPipeline", Done, "Retrieved " + Decimal(|chunks|) + " relevant chunks",
        JObj(map["num_chunks" := JNum(|chunks| as real)]));
      var result := result.(retrievedChunks := chunks, context := context);
      r := RecallStage(p, routeInfo, query.s, chunks, trace, result, rawInput, inputType, hitlOverride, caps, num,
                       id, timestamp, a);
    }

    /** Lines 94-100 of `run`: the memory lookup for the same query, traced either way. */
    method RecallStage(p: map<string, Json>, routeInfo: Json, query: string, chunks: seq<Rag.Retrieved>,
                       trace: AgentTrace, result: RunResult, rawInput: string, inputType: string,
                       hitlOverride: Option<map<string, Json>>, caps: Capabilities, num: Rag.Numerics,
                       id: string, timestamp: string, ghost a: Agents)
      returns (r: Result<RunResult>)
      requires a.similar(query, Get(p, "topic", JStr(""))) ==
        Similar(memory.records, query, Get(p, "topic", JStr("")), DefaultTopK)
      requires SolvesAs(a, caps) && VerifiesAs(a, caps)
      requires a.explain == caps.explainer && ReadableVerifications(a)
      requires forall i :: 0 <= i < |memory.records| ==> memory.records[i].id != id
      requires result == Initial().(parsedProblem := JObj(p), routeInfo := routeInfo, retrievedChunks := chunks,
                                    context := Rag.ContextOf(chunks))
      modifies memory, trace
      ensures Reflects(Advance(Recalling(routeInfo, query, chunks, old(trace.steps)), p, a, rawInput, inputType,
                               hitlOverride, caps, id, timestamp),
                       r, old(memory.records), memory.records, old(memory.saved), memory.saved)
    {
      var found := memory.FindSimilar(query, Get(p, "topic", JStr("")));
      if found.Err? {
        return Err(found.error);
      }
      var similar := found.value;
      var result := result.(similarProblems := similar);
      if similar != [] {
        trace.Add("MemoryStore", Done, "Found " + Decimal(|similar|) + " similar solved problems");
      } else {
        trace.Add("MemoryStore", NoneFound, "No similar problems found in memory");
      }
      r := SolveStage(p, routeInfo, chunks, similar, trace, result, rawInput, inputType, hitlOverride,
                      caps, id, timestamp, a);
    }

    /** Lines 102-105 of `run`: solving, traced with the answer's first 60 characters. */
    method SolveStage(p: map<string, Json>, routeInfo: Json, chunks: seq<Rag.Retrieved>,
                      similar: seq<Record>, trace: AgentTrace, result: RunResult, rawInput: string,
                      inputType: string, hitlOverride: Option<map<string, Json>>,
                      caps: Capabilities, id: string, timestamp: string, ghost a: Agents)
      returns (r: Result<RunResult>)
      requires ReadableVerifications(a)
      requires a.solve(p, routeInfo, Rag.ContextOf(chunks), similar) == SolveOutcome(ParseJsonResponse(
        caps.solver(JObj(p), routeInfo, Rag.ContextOf(chunks), SimilarContext(similar, caps)), caps.loads))
      requires forall s :: a.verify(p, s, Rag.ContextOf(chunks)) == VerifyOutcome(ParseJsonResponse(
        caps.verifier(JObj(p), s, Rag.ContextOf(chunks)), caps.loads), DefaultVerifierThreshold, caps)
      requires a.explain == caps.explainer
      requires forall i :: 0 <= i < |memory.records| ==> memory.records[i].id != id
      requires result == Initial().(parsedProblem := JObj(p), routeInfo := routeInfo, retrievedChunks := chunks,
                                    context := Rag.ContextOf(chunks), similarProblems := similar)
      modifies memory, trace
      ensures Reflects(Advance(Solving(routeInfo, chunks, similar, old(trace.steps)), p, a, rawInput,
                               inputType, hitlOverride, caps, id, timestamp),
                       r, old(memory.records), memory.records, old(memory.saved), memory.saved)
    {
      var solution := Solve(p, routeInfo, result.context, similar, caps);
      if !solution.JObj? {
        return Err(NoGet);
      }
      var answer := Prefix(Get(solution.fields, "answer", JStr("")), 60, caps);
      if answer.Err? {
        return Err(answer.error);
      }
      trace.Add("SolverAgent", Done, "Answer: " + answer.value, solution);
      var result := result.(solution := solution);
      r := ConcludeStage(p, routeInfo, chunks, similar, solution, trace, result, rawInput, inputType,
                         hitlOverride, caps, id, timestamp, a);
    }

    /** Lines 107-142 of `run`: verification, explanation and the stored record. */
    method ConcludeStage(p: map<string, Json>, routeInfo: Json, chunks: seq<Rag.Retrieved>,
                         similar: seq<Record>, solution: Json, trace: AgentTrace, result: RunResult,
                         rawInput: string, inputType: string, hitlOverride: Option<map<string, Json>>,
                         caps: Capabilities, id: string, timestamp: string, ghost a: Agents)
      returns (r: Result<RunResult>)
      requires ReadableVerifications(a) && solution.JObj?
      requires a.verify(p, solution, Rag.ContextOf(chunks)) == VerifyOutcome(ParseJsonResponse(
        caps.verifier(JObj(p), solution, Rag.ContextOf(chunks)), caps.loads), DefaultVerifierThreshold, caps)
      requires a.explain == caps.explainer
      requires forall i :: 0 <= i < |memory.records| ==> memory.records[i].id != id
      requires result == Initial().(parsedProblem := JObj(p), routeInfo := routeInfo, retrievedChunks := chunks,
                                    context := Rag.ContextOf(chunks), similarProblems := similar,
                                    solution := solution)
      modifies memory, trace
      ensures Reflects(Advance(Concluding(routeInfo, chunks, similar, solution, old(trace.steps)), p, a, rawInput,
                               inputType, hitlOverride, caps, id, timestamp),
                       r, old(memory.records), memory.records, old(memory.saved), memory.saved)
    {
      var verified := Verify(p, solution.fields, result.context, caps);
      if verified.Err? {
        return Err(verified.error);
      }
      var verification := verified.value;
      assert Readable(a.verify(p, solution, result.context).value);
      var vf := verification.fields;
      trace.Add("VerifierAgent", if Truthy(Get(vf, "is_correct", JNull)) then Done else Issues,
        "Correct: " + Display(Get(vf, "is_correct", JNull), caps) + ", Confidence: "
          + caps.fixed2(AsNumber(Get(vf, "confidence", JNum(0.0))).value), verification);
      var review := Truthy(Get(vf, "needs_hitl", JNull)) && !OverrideGiven(hitlOverride);

      var explanation := caps.explainer(JObj(p), solution, verification);
      trace.Add("ExplainerAgent", Done, "Explanation generated");

      var recordId := memory.Store(id, timestamp, inputType, rawInput, p, chunks,
        Get(solution.fields, "answer", JStr("")), explanation, verification);

      var steps := trace.ToList();
      assert steps == old(trace.steps) + [VerifierStep(verification, caps)] + [ExplainerStep()];
      var result := result.(verification := verification, needsHitl := review,
        hitlReason := if review then Get(vf, "hitl_reason", JStr("Low confidence")) else result.hitlReason,
        explanation := explanation, finalAnswer := Get(solution.fields, "answer", JStr("")),
        confidence := Get(vf, "confidence", Get(solution.fields, "confidence", JNum(0.5))),
        recordId := Some(recordId), trace := steps);
      return Ok(result);
    }
  }
}
