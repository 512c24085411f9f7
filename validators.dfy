/** The output-key check of utilities/validators.py: for a few agents, the
    keys their output dictionary must carry. */
module OutputValidation {
  import opened Values

  /** The `required_fields` table. */
  function RequiredFields(agentName: string): Option<seq<string>> {
    if agentName == "DraftWriterAgent" then Some(["draft", "word_count"])
    else if agentName == "KeywordMiningAgent" then Some(["primary_keywords", "long_tail_keywords"])
    else if agentName == "OnPageSEOAgent" then Some(["title_tag", "meta_description"])
    else if agentName == "FinalAssemblyAgent" then Some(["title", "content"])
    else None
  }

  /** The loop over the required fields with its early `return False`. */
  function AllPresent(fields: seq<string>, output: seq<(string, Value)>): (r: bool)
    ensures r <==> forall i :: 0 <= i < |fields| ==> HasKey(output, fields[i])
  {
    if fields == [] then true
    else if !HasKey(output, fields[0]) then false
    else
      var rest := AllPresent(fields[1..], output);
      assert forall i :: 1 <= i < |fields| ==> fields[i] == fields[1..][i - 1];
      rest
  }

  /** `validate_agent_output` */
  function ValidateAgentOutput(agentName: string, output: seq<(string, Value)>): bool {
    match RequiredFields(agentName)
    case None => true
    case Some(fields) => AllPresent(fields, output)
  }

  /** An agent outside the table always validates; a listed agent validates
      exactly when every field it requires is a key of the output. */
  lemma ValidateSpec(agentName: string, output: seq<(string, Value)>)
    ensures RequiredFields(agentName).None? ==> ValidateAgentOutput(agentName, output)
    ensures RequiredFields(agentName).Some? ==>
      (ValidateAgentOutput(agentName, output) <==>
       forall f :: f in RequiredFields(agentName).value ==> HasKey(output, f))
  {
  }

  /** Only which keys are present matters, never the values under them. */
  lemma ValidateDependsOnKeys(agentName: string, a: seq<(string, Value)>, b: seq<(string, Value)>)
    requires forall k :: HasKey(a, k) <==> HasKey(b, k)
    ensures ValidateAgentOutput(agentName, a) == ValidateAgentOutput(agentName, b)
  {
  }

  /** An output with at least the keys of a valid one is valid too. */
  lemma ValidateMonotone(agentName: string, a: seq<(string, Value)>, b: seq<(string, Value)>)
    requires forall k :: HasKey(a, k) ==> HasKey(b, k)
    requires ValidateAgentOutput(agentName, a)
    ensures ValidateAgentOutput(agentName, b)
  {
  }

  /** The final assembly output must carry a title and a content. */
  lemma FinalAssemblyNeedsContent(output: seq<(string, Value)>)
    ensures ValidateAgentOutput("FinalAssemblyAgent", output) <==> HasKey(output, "title") && HasKey(output, "content")
  {
    var fields := ["title", "content"];
    assert RequiredFields("FinalAssemblyAgent") == Some(fields);
    assert (forall i :: 0 <= i < |fields| ==> HasKey(output, fields[i])) <==> HasKey(output, fields[0]) && HasKey(output, fields[1]);
  }
}
