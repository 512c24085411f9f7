/** The shared helpers of agents/base_agent.py: running a prompt on the
    language model, and pulling a JSON object out of a free-text reply. The
    model call and `json.loads` are parameters. */
module AgentBase {
  import opened Values
  import opened Text
  import Pipeline

  // ---------------------------------------------------------------------------
  // execute_prompt

  /** The configured chat model: invoking it on the system and user prompts
      gives the reply text or the message of the exception it raised. */
  type Invoke = (string, string) -> Result<string, string>

  const NO_MODEL := "Gemini API key not configured"

  /** `execute_prompt`: no model gives a fixed notice; an exception becomes
      "Error: " and its message; otherwise the reply content. */
  function ExecutePrompt(llm: Option<Invoke>, systemPrompt: string, userPrompt: string): string {
    match llm
    case None => NO_MODEL
    case Some(invoke) =>
      match invoke(systemPrompt, userPrompt)
      case Ok(content) => content
      case Err(e) => "Error: " + e
  }

  /** The method never raises: every outcome of the model call is a string,
      and failures are told apart only by their text. */
  lemma ExecutePromptSpec(llm: Option<Invoke>, systemPrompt: string, userPrompt: string)
    ensures llm.None? ==> ExecutePrompt(llm, systemPrompt, userPrompt) == NO_MODEL
    ensures llm.Some? && llm.value(systemPrompt, userPrompt).Err? ==>
      var r := ExecutePrompt(llm, systemPrompt, userPrompt);
      StartsWith(r, "Error: ") && r[7..] == llm.value(systemPrompt, userPrompt).error
    ensures llm.Some? && llm.value(systemPrompt, userPrompt).Ok? ==>
      ExecutePrompt(llm, systemPrompt, userPrompt) == llm.value(systemPrompt, userPrompt).value
  {
  }

  // ---------------------------------------------------------------------------
  // parse_json_response

  const JSON_FENCE := "```json"
  const FENCE := "```"

  /** `s[start:end]` for indices within `s`: empty when `end <= start`. */
  function Slice(s: string, start: nat, end: nat): (r: string)
    requires start <= |s| && end <= |s|
    ensures start < end ==> r == s[start..end]
    ensures end <= start ==> r == []
  {
    if start < end then s[start..end] else []
  }

  /** The text after the first "```json" of a response holding one. */
  function AfterFence(response: string): string
    requires Contains(response, JSON_FENCE)
  {
    var i := IndexOf(response, JSON_FENCE).value;
    response[i + |JSON_FENCE|..]
  }

  /** The text `parse_json_response` hands to the parser, before stripping:
      the fenced block, else the span from the first '{' to the last '}',
      else the whole response. */
  function JsonCandidate(response: string): string {
    if Contains(response, JSON_FENCE) then
      var i := IndexOf(response, JSON_FENCE).value;
      SplitOnSome(response, JSON_FENCE, i);
      Before(SplitOn(response, JSON_FENCE)[1], FENCE)
    else if Contains(response, "{") && Contains(response, "}") then
      var start := IndexOf(response, "{").value;
      OccursAtChar(response, '}', IndexOf(response, "}").value);
      var end := LastIndexOf(response, '}').value + 1;
      Slice(response, start, end)
    else
      response
  }

  /** What a failed parse returns. */
  function Fallback(response: string): Value {
    Obj([("response", Str(response))])
  }

  /** `parse_json_response`, with `loads` standing for `json.loads`. */
  function ParseJsonResponse(response: string, loads: string -> Option<Value>): Value {
    match loads(Strip(JsonCandidate(response)))
    case Some(v) => v
    case None => Fallback(response)
  }

  /** With a "```json" fence, the candidate is a prefix of the text after
      the first fence, holds no "```", and runs up to the next "```" (or to
      the end when there is none). */
  lemma FencedCandidate(response: string)
    requires Contains(response, JSON_FENCE)
    ensures var r := JsonCandidate(response); var rest := AfterFence(response);
      && r <= rest && !Contains(r, FENCE)
      && (r == rest || OccursAt(rest, FENCE, |r|))
  {
    var i := IndexOf(response, JSON_FENCE).value;
    var rest := response[i + |JSON_FENCE|..];
    SplitOnSome(response, JSON_FENCE, i);
    var p := SplitOn(response, JSON_FENCE)[1];
    assert p == Before(rest, JSON_FENCE);
    var r := Before(p, FENCE);
    if Contains(p, FENCE) {
      assert p[|r|..|r| + 3] == rest[|r|..|r| + 3];
    } else if Contains(rest, JSON_FENCE) {
      assert rest[|p|..|p| + 3] == rest[|p|..|p| + 7][..3];
    }
  }

  /** Without a fence but with both braces, the candidate is the span from
      the first '{' through the last '}', or empty when the last '}' comes
      before the first '{'. */
  lemma BracesCandidate(response: string) returns (start: nat, end: nat)
    requires !Contains(response, JSON_FENCE) && Contains(response, "{") && Contains(response, "}")
    ensures start < |response| && 0 < end <= |response|
    ensures response[start] == '{' && forall j :: 0 <= j < start ==> response[j] != '{'
    ensures response[end - 1] == '}' && forall j :: end <= j < |response| ==> response[j] != '}'
    ensures start < end ==> JsonCandidate(response) == response[start..end]
    ensures end <= start ==> JsonCandidate(response) == []
  {
    start := IndexOf(response, "{").value;
    OccursAtChar(response, '{', start);
    forall j | 0 <= j < start ensures response[j] != '{' {
      OccursAtChar(response, '{', j);
    }
    OccursAtChar(response, '}', IndexOf(response, "}").value);
    end := LastIndexOf(response, '}').value + 1;
  }

  /** Without a fence or a pair of braces, the whole response is parsed. */
  lemma WholeCandidate(response: string)
    requires !Contains(response, JSON_FENCE) && !(Contains(response, "{") && Contains(response, "}"))
    ensures JsonCandidate(response) == response
  {
  }

  /** A reply that is exactly a fenced block whose body has no backquote
      yields that body as the candidate. */
  lemma FencedRoundTrip(body: string)
    requires forall j :: 0 <= j < |body| ==> body[j] != '`'
    ensures JsonCandidate(JSON_FENCE + body + FENCE) == body
  {
    var response := JSON_FENCE + body + FENCE;
    assert OccursAt(response, JSON_FENCE, 0) by { assert response[..7] == JSON_FENCE; }
    assert IndexOf(response, JSON_FENCE) == Some(0);
    var rest := body + FENCE;
    assert AfterFence(response) == rest by { assert response[7..] == rest; }
    FencedCandidate(response);
    var r := JsonCandidate(response);
    assert OccursAt(rest, FENCE, |body|) by { assert rest[|body|..|body| + 3] == FENCE; }
    OccursInPrefix(r, rest, FENCE, |body|);
    NoEarlyOccurrence(body, FENCE, |r|);
    assert |r| == |body|;
    assert r == rest[..|body|] == body;
  }

  /** Whatever the reply, the parser only sees a stripped slice of it, and a
      failed parse gives exactly the fallback dictionary, which has no
      'error' key: the pipeline treats it as a successful step. */
  lemma ParseJsonResponseSpec(response: string, loads: string -> Option<Value>)
    ensures var c := Strip(JsonCandidate(response));
      (c != [] ==> !IsSpace(c[0]) && !IsSpace(c[|c| - 1]))
    ensures loads(Strip(JsonCandidate(response))).None? ==>
      && ParseJsonResponse(response, loads) == Fallback(response)
      && !Pipeline.IsErrorDict(ParseJsonResponse(response, loads))
    ensures loads(Strip(JsonCandidate(response))).Some? ==>
      ParseJsonResponse(response, loads) == loads(Strip(JsonCandidate(response))).value
  {
  }
}
