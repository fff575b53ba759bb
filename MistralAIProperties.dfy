/** Properties of the Mistral accessors and configuration. */
module MistralAIProperties {
  import opened Wrappers
  import opened Json
  import opened Validation
  import opened MistralAI

  /** Both accessors read the first output and are null when `Outputs` is
      null or empty; later outputs are ignored. */
  lemma MistralFirstOutput(r: MistralResponse, first: Output, rest1: seq<Output>, rest2: seq<Output>)
    ensures (r.outputs.None? || r.outputs == Some([])) ==> MistralText(r).None? && MistralStopReason(r).None?
    ensures r.outputs.Some? && r.outputs.value != [] ==>
      MistralText(r) == r.outputs.value[0].text && MistralStopReason(r) == r.outputs.value[0].stopReason
    ensures MistralText(MistralResponse(Some([first] + rest1))) == MistralText(MistralResponse(Some([first] + rest2)))
    ensures MistralStopReason(MistralResponse(Some([first] + rest1))) == MistralStopReason(MistralResponse(Some([first] + rest2)))
  {
  }

  lemma MistralConfigValidation(c: MistralTextGenerationConfig)
    ensures FirstFailure(MistralConfigChecks(c)).None? <==> MistralConfigValid(c)
    ensures forall s :: MistralConfigValid(c.(stop := s)) == MistralConfigValid(c)
  {
    var checks := MistralConfigChecks(c);
    assert (forall i :: 0 <= i < |checks| ==> checks[i].passes) <==>
      checks[0].passes && checks[1].passes && checks[2].passes && checks[3].passes;
  }

  /** Each of the five properties is written exactly when non-null; an
      empty configuration serializes to {} and is valid. */
  lemma MistralConfigShape(c: MistralTextGenerationConfig)
    ensures var fs := SerializeMistralConfig(c);
      && Lookup(fs, "max_tokens") == OptInt(c.maxTokens)
      && Lookup(fs, "stop") == OptString(c.stop)
      && Lookup(fs, "temperature") == OptReal(c.temperature)
      && Lookup(fs, "top_p") == OptReal(c.topP)
      && Lookup(fs, "top_k") == OptInt(c.topK)
      && DistinctKeys(fs)
    ensures SerializeMistralConfig(MistralTextGenerationConfig(None, None, None, None, None)) == []
    ensures MistralConfigValid(MistralTextGenerationConfig(None, None, None, None, None))
  {
    var props := MistralConfigProperties(c);
    WriteLookup(props);
    assert props[0].0 == "max_tokens" && props[1].0 == "stop" && props[2].0 == "temperature";
    assert props[3].0 == "top_p" && props[4].0 == "top_k";
  }

  lemma MistralConfigRoundTrip(c: MistralTextGenerationConfig)
    ensures DeserializeMistralConfig(SerializeMistralConfig(c)) == Some(c)
  {
    MistralConfigShape(c);
  }
}
