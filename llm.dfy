/** The language-model boundary (utils/llm.py): the capabilities every agent consumes, and the
    best-effort decoder `parse_json_response` that turns a model's reply into a JSON value.
    normalization/llm.py carries the same decoder line for line; both are modelled by
    `ParseJsonResponse`. */
module Llm {
  import opened Json
  import opened Text

  /** The opaque collaborators. Each agent's chat completion receives what its prompt is built
      from and returns the reply's content (`None` when the API returns no content). */
  datatype Capabilities = Capabilities(
    loads: string -> Option<Json>,                        // json.loads; None = JSONDecodeError
    parser: (string, string) -> Option<string>,           // (input type, corrected text)
    router: Json -> Option<string>,                       // parsed problem
    solver: (Json, Json, string, string) -> Option<string>, // parsed, route, context, similar examples
    verifier: (Json, Json, string) -> Option<string>,     // parsed, solution, context
    explainer: (Json, Json, Json) -> string,              // parsed, solution, verification
    show: Json -> string,                                 // str() of a non-string value
    fixed2: real -> string)                               // format(x, ".2f")

  /** An f-string placeholder: a string is inserted as is, anything else through `str()`. */
  function Display(j: Json, caps: Capabilities): string
  {
    if j.JStr? then j.s else caps.show(j)
  }

  /** `re.sub(r"```(?:json)?", "", s)`: scanning left to right, each "```" is removed together
      with a "json" right after it. */
  function RemoveFences(s: string): string
    decreases |s|
  {
    if StartsWith(s, "```json") then RemoveFences(s[7..])
    else if StartsWith(s, "```") then RemoveFences(s[3..])
    else if s == [] then []
    else [s[0]] + RemoveFences(s[1..])
  }

  /** The second attempt's text: fences removed, stripped, trailing backticks removed, stripped. */
  function StripFences(text: string): string
  {
    Strip(RStripChar(Strip(RemoveFences(text)), '`'))
  }

  function IndexOf(s: string, c: char): (r: Option<nat>)
    ensures r.Some? ==> r.value < |s| && s[r.value] == c && forall k :: 0 <= k < r.value ==> s[k] != c
    ensures r.None? ==> forall k :: 0 <= k < |s| ==> s[k] != c
    decreases |s|
  {
    if s == [] then None
    else if s[0] == c then Some(0)
    else match IndexOf(s[1..], c)
      case None => None
      case Some(i) => Some(i + 1)
  }

  function LastIndexOf(s: string, c: char): (r: Option<nat>)
    ensures r.Some? ==> r.value < |s| && s[r.value] == c && forall k :: r.value < k < |s| ==> s[k] != c
    ensures r.None? ==> forall k :: 0 <= k < |s| ==> s[k] != c
    decreases |s|
  {
    if s == [] then None
    else if s[|s| - 1] == c then Some(|s| - 1)
    else LastIndexOf(s[..|s| - 1], c)
  }

  /** `re.search(r"\{.*\}", text, re.DOTALL)`: the greedy span from the first '{' to the last
      '}', when some '}' follows the first '{'. */
  function BraceSpan(text: string): Option<string>
  {
    match (IndexOf(text, '{'), LastIndexOf(text, '}'))
    case (Some(i), Some(j)) => if i < j then Some(text[i..j + 1]) else None
    case _ => None
  }

  /** The span exists exactly when some '}' follows some '{', and it runs from the first '{'
      to the last '}'. */
  lemma BraceSpanSpec(text: string)
    ensures BraceSpan(text).Some? <==>
      exists i, j :: 0 <= i < j < |text| && text[i] == '{' && text[j] == '}'
    ensures BraceSpan(text).Some? ==> exists i, j :: (0 <= i < j < |text|
      && BraceSpan(text).value == text[i..j + 1]
      && text[i] == '{' && text[j] == '}'
      && (forall k :: 0 <= k < i ==> text[k] != '{')
      && (forall k :: j < k < |text| ==> text[k] != '}'))
  {
  }

  /** `parse_json_response`: strict parse, then the fence-stripped text, then the brace span;
      `{}` for empty or missing text and when every attempt fails. */
  function ParseJsonResponse(text: Option<string>, loads: string -> Option<Json>): Json
  {
    if text.None? || text.value == "" then EmptyObject
    else
      var t := text.value;
      match loads(t)
      case Some(v) => v
      case None =>
        match loads(StripFences(t))
        case Some(v) => v
        case None => BraceAttempt(t, loads)
  }

  /** The third attempt: decode the brace span, `{}` when there is none or it does not parse. */
  function BraceAttempt(t: string, loads: string -> Option<Json>): Json
  {
    match BraceSpan(t)
    case None => EmptyObject
    case Some(span) =>
      match loads(span)
      case Some(v) => v
      case None => EmptyObject
  }

  /** Empty or missing text decodes to `{}` without calling the parser. */
  lemma EmptyTextDecodesEmpty(text: Option<string>, loads: string -> Option<Json>)
    requires text.None? || text == Some("")
    ensures ParseJsonResponse(text, loads) == EmptyObject
  {
  }

  /** A reply that parses as it stands is returned as parsed, whatever kind of value it is. */
  lemma StrictParseWins(t: string, loads: string -> Option<Json>)
    requires t != "" && loads(t).Some?
    ensures ParseJsonResponse(Some(t), loads) == loads(t).value
  {
  }

  /** Otherwise the fence-stripped text is tried second. */
  lemma FencedParseSecond(t: string, loads: string -> Option<Json>)
    requires t != "" && loads(t).None? && loads(StripFences(t)).Some?
    ensures ParseJsonResponse(Some(t), loads) == loads(StripFences(t)).value
  {
  }

  /** Otherwise the brace span of the original text is tried third. */
  lemma BraceParseThird(t: string, span: string, loads: string -> Option<Json>)
    requires t != "" && loads(t).None? && loads(StripFences(t)).None?
    requires BraceSpan(t) == Some(span) && loads(span).Some?
    ensures ParseJsonResponse(Some(t), loads) == loads(span).value
  {
    FallsToBraces(t, loads);
    BraceAttemptParses(t, span, loads);
  }

  lemma FallsToBraces(t: string, loads: string -> Option<Json>)
    requires t != "" && loads(t).None? && loads(StripFences(t)).None?
    ensures ParseJsonResponse(Some(t), loads) == BraceAttempt(t, loads)
  {
  }

  lemma BraceAttemptParses(t: string, span: string, loads: string -> Option<Json>)
    requires BraceSpan(t) == Some(span) && loads(span).Some?
    ensures BraceAttempt(t, loads) == loads(span).value
  {
  }

  /** No decode error escapes: when every attempt fails the result is `{}`. */
  lemma AllAttemptsFail(t: string, loads: string -> Option<Json>)
    requires loads(t).None? && loads(StripFences(t)).None?
    requires BraceSpan(t).Some? ==> loads(BraceSpan(t).value).None?
    ensures ParseJsonResponse(Some(t), loads) == EmptyObject
  {
  }

  lemma {:induction false} RemoveFencesPlain(p: string)
    requires forall k :: 0 <= k < |p| ==> p[k] != '`'
    ensures RemoveFences(p + "```") == p
    decreases |p|
  {
    if p == [] {
      assert RemoveFences("```"[3..]) == [];
    } else {
      var s := p + "```";
      assert s[0] == p[0] && "```"[0] == '`' && "```json"[0] == '`';
      assert !StartsWith(s, "```") && !StartsWith(s, "```json");
      assert s[1..] == p[1..] + "```";
      RemoveFencesPlain(p[1..]);
      assert p == [p[0]] + p[1..];
    }
  }

  /** A reply wrapped in a json code fence yields its stripped payload as the second attempt. */
  lemma {:induction false} FencedPayload(p: string)
    requires forall k :: 0 <= k < |p| ==> p[k] != '`'
    ensures StripFences("```json" + p + "```") == Strip(p)
  {
    var s := "```json" + p + "```";
    assert StartsWith(s, "```json");
    assert s[7..] == p + "```";
    RemoveFencesPlain(p);
    var t := Strip(p);
    assert forall k :: 0 <= k < |t| ==> t[k] != '`' by {
      assert t == LStrip(p)[..|t|];
      assert LStrip(p) == p[|p| - |LStrip(p)|..];
    }
    assert RStripChar(t, '`') == t;
    StripIdempotent(p);
  }
}
