/** Properties of the Llama accessors and configuration. */
module MetaProperties {
  import opened Wrappers
  import opened Json
  import opened Validation
  import opened Meta

  /** The token counts affect neither accessor. */
  lemma LlamaAccessorsIgnoreCounts(r: LlamaResponse, p: Option<int>, g: Option<int>)
    ensures var s := r.(promptTokenCount := p, generationTokenCount := g);
      LlamaText(s) == LlamaText(r) && LlamaStopReason(s) == LlamaStopReason(r)
  {
  }

  lemma LlamaConfigValidation(c: LlamaTextGenerationConfig)
    ensures FirstFailure(LlamaConfigChecks(c)).None? <==> LlamaConfigValid(c)
  {
    var checks := LlamaConfigChecks(c);
    assert (forall i :: 0 <= i < |checks| ==> checks[i].passes) <==>
      checks[0].passes && checks[1].passes && checks[2].passes;
  }

  /** Each property is written exactly when non-null; an empty configuration
      serializes to {} and is valid. */
  lemma LlamaConfigShape(c: LlamaTextGenerationConfig)
    ensures var fs := SerializeLlamaConfig(c);
      && Lookup(fs, "temperature") == OptReal(c.temperature)
      && Lookup(fs, "top_p") == OptReal(c.topP)
      && Lookup(fs, "max_gen_len") == OptInt(c.maxGenLen)
      && DistinctKeys(fs)
    ensures SerializeLlamaConfig(LlamaTextGenerationConfig(None, None, None)) == []
    ensures LlamaConfigValid(LlamaTextGenerationConfig(None, None, None))
  {
    var props := LlamaConfigProperties(c);
    WriteLookup(props);
    assert props[0].0 == "temperature" && props[1].0 == "top_p" && props[2].0 == "max_gen_len";
  }

  lemma LlamaConfigRoundTrip(c: LlamaTextGenerationConfig)
    ensures DeserializeLlamaConfig(SerializeLlamaConfig(c)) == Some(c)
  {
    LlamaConfigShape(c);
  }
}
