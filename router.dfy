/** agents/router_agent.py: the language model plans a solution strategy for the parsed
    problem; an empty decode falls back to a fixed plan that carries the topic over. */
module Router {
  import opened Json
  import opened Llm

  /** The plan `route` returns when the reply decodes to nothing truthy. */
  function RouterFallback(parsed: map<string, Json>): map<string, Json>
  {
    map[
      "topic" := Get(parsed, "topic", JStr("other")),
      "subtopic" := Get(parsed, "subtopic", JStr("")),
      "solution_strategy" := JStr("Direct computation"),
      "tools_needed" := JArr([]),
      "difficulty" := JStr("medium"),
      "estimated_steps" := JNum(4.0),
      "special_considerations" := JArr([])]
  }

  /** `route(parsed_problem)`. */
  function Route(parsed: map<string, Json>, caps: Capabilities): Json
  {
    var decoded := ParseJsonResponse(caps.router(JObj(parsed)), caps.loads);
    if Truthy(decoded) then decoded else JObj(RouterFallback(parsed))
  }

  /** A truthy decode is the plan as it stands. Otherwise the topic and subtopic are those of the
      parsed problem ("other" and "" when it has none), the strategy is "Direct computation",
      the difficulty "medium" in 4 steps, and no tools or special considerations are listed.
      Either way the plan is truthy. */
  lemma RouteProperties(parsed: map<string, Json>, caps: Capabilities)
    ensures var decoded := ParseJsonResponse(caps.router(JObj(parsed)), caps.loads);
      Truthy(decoded) ==> Route(parsed, caps) == decoded
    ensures var decoded := ParseJsonResponse(caps.router(JObj(parsed)), caps.loads);
      !Truthy(decoded) ==>
        var r := Route(parsed, caps);
        && r.JObj?
        && Get(r.fields, "topic", JNull) == (if "topic" in parsed then parsed["topic"] else JStr("other"))
        && Get(r.fields, "subtopic", JNull) == (if "subtopic" in parsed then parsed["subtopic"] else JStr(""))
        && Get(r.fields, "solution_strategy", JNull) == JStr("Direct computation")
        && Get(r.fields, "difficulty", JNull) == JStr("medium")
        && Get(r.fields, "estimated_steps", JNull) == JNum(4.0)
        && Get(r.fields, "tools_needed", JNull) == JArr([])
        && Get(r.fields, "special_considerations", JNull) == JArr([])
    ensures Truthy(Route(parsed, caps))
  {
    var decoded := ParseJsonResponse(caps.router(JObj(parsed)), caps.loads);
    if !Truthy(decoded) {
      assert "topic" in RouterFallback(parsed);
    }
  }
}
