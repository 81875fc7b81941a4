/** agents/verifier_agent.py: the language model checks a solution; an empty decode falls back
    to a failed verification, and a confidence below the threshold forces human review. */
module Verifier {
  import opened Json
  import opened Llm

  /** VERIFIER_CONFIDENCE_THRESHOLD's default (config.py). */
  const DefaultVerifierThreshold: real := 0.75

  /** The outcome `verify` starts from when the reply decodes to nothing truthy. */
  function VerifierFallback(): map<string, Json>
  {
    map[
      "is_correct" := JBool(false),
      "confidence" := JNum(0.0),
      "issues_found" := JArr([JStr("Verification failed")]),
      "corrections" := JArr([]),
      "domain_check" := JStr("N/A"),
      "units_check" := JStr("N/A"),
      "edge_case_check" := JStr("N/A"),
      "needs_hitl" := JBool(true),
      "hitl_reason" := JStr("Verification system error"),
      "verification_steps" := JArr([])]
  }

  const NoGet := AttributeError("object has no attribute 'get'")
  const NotComparable := TypeError("'<' not supported between the confidence and a float")

  /** The threshold step applied to the decoded (or fallback) result. A result that is not a
      dict has no `.get`; a confidence that is neither a number nor a bool cannot be compared. */
  function Gate(result: Json, threshold: real, caps: Capabilities): Result<Json>
  {
    if !result.JObj? then Err(NoGet)
    else
      var c := AsNumber(Get(result.fields, "confidence", JNum(0.0)));
      if c.None? then Err(NotComparable)
      else if c.value < threshold then
        var m := result.fields["needs_hitl" := JBool(true)];
        if Truthy(Get(m, "hitl_reason", JNull)) then Ok(JObj(m))
        else Ok(JObj(m["hitl_reason" := JStr("Low confidence (" + caps.fixed2(c.value) + ")")]))
      else Ok(result)
  }

  /** What `verify` returns for the decoded reply. */
  function VerifyOutcome(decoded: Json, threshold: real, caps: Capabilities): Result<Json>
  {
    Gate(if Truthy(decoded) then decoded else JObj(VerifierFallback()), threshold, caps)
  }

  /** A confidence at or above the threshold leaves the result as it is. Below it (a missing
      confidence counts as 0), `needs_hitl` becomes true, a truthy `hitl_reason` is kept and an
      untruthy one is replaced by "Low confidence (c)", and every other entry is unchanged. */
  lemma GateProperties(result: Json, threshold: real, caps: Capabilities)
    requires result.JObj?
    requires AsNumber(Get(result.fields, "confidence", JNum(0.0))).Some?
    ensures var c := AsNumber(Get(result.fields, "confidence", JNum(0.0))).value;
      var g := Gate(result, threshold, caps);
      && g.Ok?
      && (c >= threshold ==> g.value == result)
      && (c < threshold ==>
        && g.value.JObj?
        && g.value.fields.Keys == result.fields.Keys + {"needs_hitl", "hitl_reason"}
        && g.value.fields["needs_hitl"] == JBool(true)
        && (Truthy(Get(result.fields, "hitl_reason", JNull)) ==>
              g.value.fields["hitl_reason"] == result.fields["hitl_reason"])
        && (!Truthy(Get(result.fields, "hitl_reason", JNull)) ==>
              g.value.fields["hitl_reason"] == JStr("Low confidence (" + caps.fixed2(c) + ")"))
        && (forall k :: k in result.fields && k != "needs_hitl" && k != "hitl_reason" ==>
              g.value.fields[k] == result.fields[k]))
  {
    var c := AsNumber(Get(result.fields, "confidence", JNum(0.0))).value;
    if c < threshold {
      var m := result.fields["needs_hitl" := JBool(true)];
      assert Get(m, "hitl_reason", JNull) == Get(result.fields, "hitl_reason", JNull);
      if Truthy(Get(m, "hitl_reason", JNull)) {
        assert "hitl_reason" in result.fields;
      }
    }
  }

  /** A result without a confidence goes to human review whenever the threshold is positive. */
  lemma MissingConfidenceForcesReview(result: Json, threshold: real, caps: Capabilities)
    requires result.JObj? && "confidence" !in result.fields && threshold > 0.0
    ensures Gate(result, threshold, caps).Ok?
    ensures Get(Gate(result, threshold, caps).value.fields, "needs_hitl", JNull) == JBool(true)
  {
  }

  /** The fallback outcome always goes to human review, for "Verification system error",
      whatever the threshold. */
  lemma FallbackNeedsReview(decoded: Json, threshold: real, caps: Capabilities)
    requires !Truthy(decoded)
    ensures var r := VerifyOutcome(decoded, threshold, caps);
      && r.Ok? && r.value.JObj?
      && Get(r.value.fields, "needs_hitl", JNull) == JBool(true)
      && Get(r.value.fields, "hitl_reason", JNull) == JStr("Verification system error")
      && Get(r.value.fields, "is_correct", JNull) == JBool(false)
      && Get(r.value.fields, "issues_found", JNull) == JArr([JStr("Verification failed")])
  {
    var fb := JObj(VerifierFallback());
    assert "confidence" in fb.fields && "hitl_reason" in fb.fields;
    GateProperties(fb, threshold, caps);
  }

  /** Whatever passes the threshold step is a dict whose confidence (0 when missing) is a
      number or a bool, so it can be formatted with ".2f". */
  lemma GateOkShape(result: Json, threshold: real, caps: Capabilities)
    ensures var g := Gate(result, threshold, caps);
      g.Ok? ==> g.value.JObj? && AsNumber(Get(g.value.fields, "confidence", JNum(0.0))).Some?
  {
    var g := Gate(result, threshold, caps);
    if g.Ok? {
      GateProperties(result, threshold, caps);
    }
  }

  /** `verify(parsed_problem, solution, context)`: the result dict is updated in place. */
  method Verify(parsed: map<string, Json>, solution: map<string, Json>, context: string,
                caps: Capabilities, threshold: real := DefaultVerifierThreshold) returns (r: Result<Json>)
    ensures r == VerifyOutcome(ParseJsonResponse(caps.verifier(JObj(parsed), JObj(solution), context), caps.loads),
                               threshold, caps)
  {
    var response := caps.verifier(JObj(parsed), JObj(solution), context);
    var result := ParseJsonResponse(response, caps.loads);
    if !Truthy(result) {
      result := JObj(VerifierFallback());
    }
    if !result.JObj? {
      return Err(NoGet);
    }
    var confidence := AsNumber(Get(result.fields, "confidence", JNum(0.0)));
    if confidence.None? {
      return Err(NotComparable);
    }
    if confidence.value < threshold {
      result := JObj(result.fields["needs_hitl" := JBool(true)]);
      if !Truthy(Get(result.fields, "hitl_reason", JNull)) {
        result := JObj(result.fields["hitl_reason" := JStr("Low confidence (" + caps.fixed2(confidence.value) + ")")]);
      }
    }
    return Ok(result);
  }
}
