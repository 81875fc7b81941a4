/** agents/solver_agent.py: up to two solved problems from memory are shown to the language
    model as worked examples; an empty decode falls back to a fixed "Unable to solve" record. */
module Solver {
  import opened Json
  import opened Text
  import opened Lists
  import opened Llm
  import opened Memory

  const ExamplesHeader: string := "\n\nSIMILAR SOLVED PROBLEMS (for pattern reference):\n"
  const ExampleSeparator: string := "\n---\n"
  const MaxExamples: nat := 2

  /** A solved problem is an example when both its parsed question and its answer are truthy. */
  predicate IsExample(sp: Record)
  {
    Truthy(JObj(sp.parsedQuestion)) && Truthy(sp.finalAnswer)
  }

  function ExampleText(sp: Record, caps: Capabilities): string
  {
    "Similar problem: " + Display(Get(sp.parsedQuestion, "problem_text", JStr("")), caps)
      + "\nAnswer: " + Display(sp.finalAnswer, caps)
  }

  /** The example texts of the given solved problems, in their order. */
  function Examples(sps: seq<Record>, caps: Capabilities): seq<string>
  {
    if sps == [] then []
    else
      var last := sps[|sps| - 1];
      Examples(sps[..|sps| - 1], caps) + (if IsExample(last) then [ExampleText(last, caps)] else [])
  }

  /** The similar-problems context of `solve`. */
  function SimilarContext(similar: seq<Record>, caps: Capabilities): string
  {
    var examples := Examples(Take(similar, MaxExamples), caps);
    if examples == [] then "" else ExamplesHeader + Join(ExampleSeparator, examples)
  }

  /** How many of the given solved problems are examples. */
  function ExampleCount(sps: seq<Record>): nat
  {
    if sps == [] then 0 else ExampleCount(sps[..|sps| - 1]) + (if IsExample(sps[|sps| - 1]) then 1 else 0)
  }

  /** The examples are exactly the texts of the qualifying problems, in order: there are as
      many as there are qualifying problems, the qualifying problem at position `k` gives the
      example at position "number of qualifying problems before `k`", and every example is the
      text of a qualifying problem. */
  lemma {:induction false} ExamplesSelect(sps: seq<Record>, caps: Capabilities)
    ensures |Examples(sps, caps)| == ExampleCount(sps) <= |sps|
    ensures forall k :: 0 <= k < |sps| && IsExample(sps[k]) ==>
      ExampleCount(sps[..k]) < |Examples(sps, caps)|
      && Examples(sps, caps)[ExampleCount(sps[..k])] == ExampleText(sps[k], caps)
    ensures forall e :: e in Examples(sps, caps) ==>
      exists k :: 0 <= k < |sps| && IsExample(sps[k]) && e == ExampleText(sps[k], caps)
    ensures (forall k :: 0 <= k < |sps| ==> !IsExample(sps[k])) <==> Examples(sps, caps) == []
    decreases |sps|
  {
    if sps != [] {
      var init, last := sps[..|sps| - 1], sps[|sps| - 1];
      ExamplesSelect(init, caps);
      assert forall k :: 0 <= k < |init| ==> init[k] == sps[k];
      var before := Examples(init, caps);
      forall k | 0 <= k < |sps| && IsExample(sps[k])
        ensures ExampleCount(sps[..k]) < |Examples(sps, caps)|
        ensures Examples(sps, caps)[ExampleCount(sps[..k])] == ExampleText(sps[k], caps)
      {
        if k < |init| {
          assert sps[..k] == init[..k];
          assert Examples(sps, caps)[ExampleCount(init[..k])] == before[ExampleCount(init[..k])];
        } else {
          assert sps[..k] == init;
        }
      }
      forall e | e in Examples(sps, caps)
        ensures exists k :: 0 <= k < |sps| && IsExample(sps[k]) && e == ExampleText(sps[k], caps)
      {
        if e in Examples(init, caps) {
          var k :| 0 <= k < |init| && IsExample(init[k]) && e == ExampleText(init[k], caps);
          assert sps[k] == init[k];
        } else {
          assert IsExample(last) && e == ExampleText(sps[|sps| - 1], caps);
        }
      }
    }
  }

  /** At most two examples are shown, taken from the first two similar problems only; the
      context is empty exactly when neither of those qualifies, and otherwise starts with the
      header. */
  lemma SimilarContextProperties(similar: seq<Record>, caps: Capabilities)
    ensures |Examples(Take(similar, MaxExamples), caps)| <= MaxExamples
    ensures forall e :: e in Examples(Take(similar, MaxExamples), caps) ==>
      exists k :: 0 <= k < |similar| && k < MaxExamples && IsExample(similar[k]) && e == ExampleText(similar[k], caps)
    ensures SimilarContext(similar, caps) == "" <==>
      forall k :: 0 <= k < |similar| && k < MaxExamples ==> !IsExample(similar[k])
    ensures SimilarContext(similar, caps) != "" ==>
      StartsWith(SimilarContext(similar, caps), ExamplesHeader)
  {
    var first := Take(similar, MaxExamples);
    ExamplesSelect(first, caps);
    assert forall k :: 0 <= k < |first| ==> first[k] == similar[k];
    var ctx := SimilarContext(similar, caps);
    if ctx != "" {
      assert ctx[..|ExamplesHeader|] == ExamplesHeader;
    }
  }

  /** The record `solve` returns when the reply decodes to nothing truthy. */
  function SolverFallback(): map<string, Json>
  {
    map[
      "answer" := JStr("Unable to solve"),
      "answer_latex" := JStr(""),
      "solution_steps" := JArr([]),
      "method_used" := JStr("N/A"),
      "confidence" := JNum(0.0),
      "assumptions_made" := JArr([]),
      "alternative_approaches" := JArr([])]
  }

  function SolveOutcome(decoded: Json): Json
  {
    if Truthy(decoded) then decoded else JObj(SolverFallback())
  }

  /** A truthy decode is the solution as it stands; otherwise the answer is "Unable to solve"
      with confidence 0.0 by method "N/A", with no steps, assumptions or alternatives. */
  lemma SolveOutcomeProperties(decoded: Json)
    ensures Truthy(decoded) ==> SolveOutcome(decoded) == decoded
    ensures !Truthy(decoded) ==>
      var r := SolveOutcome(decoded);
      && r.JObj?
      && Get(r.fields, "answer", JNull) == JStr("Unable to solve")
      && Get(r.fields, "confidence", JNull) == JNum(0.0)
      && Get(r.fields, "method_used", JNull) == JStr("N/A")
      && Get(r.fields, "solution_steps", JNull) == JArr([])
      && Get(r.fields, "assumptions_made", JNull) == JArr([])
      && Get(r.fields, "alternative_approaches", JNull) == JArr([])
    ensures Truthy(SolveOutcome(decoded))
  {
    if !Truthy(decoded) {
      assert "answer" in SolverFallback();
    }
  }

  /** The example-assembly loop of `solve`. */
  method AssembleSimilarContext(similar: seq<Record>, caps: Capabilities) returns (ctx: string)
    ensures ctx == SimilarContext(similar, caps)
  {
    ctx := "";
    if similar != [] {
      var first := Take(similar, MaxExamples);
      var examples: seq<string> := [];
      for i := 0 to |first|
        invariant examples == Examples(first[..i], caps)
      {
        assert first[..i + 1][..i] == first[..i];
        var sp := first[i];
        var pq := sp.parsedQuestion;
        var fa := sp.finalAnswer;
        if Truthy(JObj(pq)) && Truthy(fa) {
          examples := examples + ["Similar problem: " + Display(Get(pq, "problem_text", JStr("")), caps)
            + "\nAnswer: " + Display(fa, caps)];
        }
      }
      assert first[..|first|] == first;
      if examples != [] {
        ctx := ExamplesHeader + Join(ExampleSeparator, examples);
      }
    }
  }

  /** `solve(parsed_problem, route_info, context, similar_problems)`. */
  method Solve(parsed: map<string, Json>, routeInfo: Json, context: string, similar: seq<Record>,
               caps: Capabilities) returns (result: Json)
    ensures result == SolveOutcome(ParseJsonResponse(
      caps.solver(JObj(parsed), routeInfo, context, SimilarContext(similar, caps)), caps.loads))
  {
    var similarContext := AssembleSimilarContext(similar, caps);
    var response := caps.solver(JObj(parsed), routeInfo, context, similarContext);
    result := ParseJsonResponse(response, caps.loads);
    if !Truthy(result) {
      result := JObj(SolverFallback());
    }
  }
}
