/** agents/parser_agent.py: reviewer corrections are applied to the raw input as ordered
    replace-alls before the language model structures it; an empty decode falls back to a fixed
    record that asks for clarification. */
module Parser {
  import opened Json
  import opened Text
  import opened Llm
  import opened Memory

  /** One step of `_apply_correction_patterns`: a pattern with an empty original or an empty
      correction, or whose original does not occur, is skipped; otherwise every occurrence is
      replaced. */
  function ApplyPattern(text: string, p: CorrectionPattern): string
  {
    if p.original != "" && p.correction != "" && Occurs(text, p.original) then
      ReplaceAll(text, p.original, p.correction)
    else text
  }

  /** The text after the given patterns, applied in list order. */
  function ApplyPatterns(text: string, patterns: seq<CorrectionPattern>): string
  {
    if patterns == [] then text
    else ApplyPattern(ApplyPatterns(text, patterns[..|patterns| - 1]), patterns[|patterns| - 1])
  }

  /** Applying a list of patterns is applying its first part, then the rest. */
  lemma {:induction false} ApplyPatternsConcat(text: string, a: seq<CorrectionPattern>, b: seq<CorrectionPattern>)
    ensures ApplyPatterns(text, a + b) == ApplyPatterns(ApplyPatterns(text, a), b)
    decreases |b|
  {
    if b == [] {
      assert a + b == a;
    } else {
      var init := b[..|b| - 1];
      ApplyPatternsConcat(text, a, init);
      assert (a + b)[..|a + b| - 1] == a + init;
    }
  }

  /** A pattern with an empty original or an empty correction never changes the text. */
  lemma SkippedPattern(text: string, p: CorrectionPattern)
    requires p.original == "" || p.correction == ""
    ensures ApplyPattern(text, p) == text
  {
  }

  /** A usable pattern replaces every occurrence of its original: the result is the text split
      at the original's non-overlapping occurrences and rejoined with the correction. The
      occurrence guard only saves work, since replacing an absent text changes nothing. */
  lemma UsablePattern(text: string, p: CorrectionPattern)
    requires p.original != "" && p.correction != ""
    ensures ApplyPattern(text, p) == ReplaceAll(text, p.original, p.correction)
    ensures ApplyPattern(text, p) == Join(p.correction, SplitOn(text, p.original))
    ensures !Occurs(text, p.original) ==> ApplyPattern(text, p) == text
  {
    if !Occurs(text, p.original) {
      ReplaceAllAbsent(text, p.original, p.correction);
    }
    ReplaceAllIsJoinOfSplit(text, p.original, p.correction);
  }

  /** Patterns whose originals occur nowhere along the way leave the text as it is. */
  lemma {:induction false} AbsentPatternsIdentity(text: string, patterns: seq<CorrectionPattern>)
    requires forall i :: 0 <= i < |patterns| ==> !Occurs(text, patterns[i].original)
    ensures ApplyPatterns(text, patterns) == text
    decreases |patterns|
  {
    if patterns != [] {
      var init := patterns[..|patterns| - 1];
      assert forall i :: 0 <= i < |init| ==> init[i] == patterns[i];
      AbsentPatternsIdentity(text, init);
    }
  }

  /** The record `parse` returns when the reply decodes to nothing truthy. */
  function ParserFallback(corrected: string): map<string, Json>
  {
    map[
      "problem_text" := JStr(corrected),
      "topic" := JStr("other"),
      "subtopic" := JStr(""),
      "variables" := JArr([]),
      "constraints" := JArr([]),
      "given" := JArr([]),
      "asked" := JStr(""),
      "needs_clarification" := JBool(true),
      "clarification_reason" := JStr("Failed to parse structure"),
      "confidence" := JNum(0.3)]
  }

  /** What `parse` returns for the corrected text and the decoded reply. */
  function ParseOutcome(corrected: string, decoded: Json): Json
  {
    if Truthy(decoded) then decoded else JObj(ParserFallback(corrected))
  }

  /** A truthy decode is returned unchanged, whatever kind of value it is; otherwise the
      fallback keeps the corrected text, has topic "other", asks for clarification for the
      reason "Failed to parse structure" with confidence 0.3. Either way the result is truthy. */
  lemma ParseOutcomeProperties(corrected: string, decoded: Json)
    ensures Truthy(decoded) ==> ParseOutcome(corrected, decoded) == decoded
    ensures !Truthy(decoded) ==>
      var r := ParseOutcome(corrected, decoded);
      && r.JObj?
      && Get(r.fields, "problem_text", JNull) == JStr(corrected)
      && Get(r.fields, "topic", JNull) == JStr("other")
      && Get(r.fields, "needs_clarification", JNull) == JBool(true)
      && Get(r.fields, "clarification_reason", JNull) == JStr("Failed to parse structure")
      && Get(r.fields, "confidence", JNull) == JNum(0.3)
    ensures Truthy(ParseOutcome(corrected, decoded))
  {
    if !Truthy(decoded) {
      assert "problem_text" in ParserFallback(corrected);
    }
  }

  class ParserAgent {
    var correctionPatterns: seq<CorrectionPattern>

    /** `__init__`: `correction_patterns or []`. */
    constructor(patterns: Option<seq<CorrectionPattern>>)
      ensures correctionPatterns == (if patterns.Some? then patterns.value else [])
    {
      correctionPatterns := if patterns.Some? then patterns.value else [];
    }

    /** `_apply_correction_patterns`: the patterns in list order. */
    method ApplyCorrectionPatterns(text: string) returns (r: string)
      ensures r == ApplyPatterns(text, correctionPatterns)
    {
      r := text;
      for i := 0 to |correctionPatterns|
        invariant r == ApplyPatterns(text, correctionPatterns[..i])
      {
        assert correctionPatterns[..i + 1][..i] == correctionPatterns[..i];
        var p := correctionPatterns[i];
        if p.original != "" && p.correction != "" && Occurs(r, p.original) {
          r := ReplaceAll(r, p.original, p.correction);
        }
      }
      assert correctionPatterns[..|correctionPatterns|] == correctionPatterns;
    }

    /** `parse`: the model sees the corrected text, never the raw one. */
    method Parse(rawText: string, caps: Capabilities, inputType: string := "text") returns (result: Json)
      ensures var corrected := ApplyPatterns(rawText, correctionPatterns);
        result == ParseOutcome(corrected, ParseJsonResponse(caps.parser(inputType, corrected), caps.loads))
    {
      var corrected := ApplyCorrectionPatterns(rawText);
      var response := caps.parser(inputType, corrected);
      result := ParseJsonResponse(response, caps.loads);
      if !Truthy(result) {
        result := JObj(ParserFallback(corrected));
      }
    }
  }
}
