/** The Meta Llama types: the response (also the Llama 2 streaming chunk
    shape) and the text-generation configuration. */
module Meta {
  import opened Wrappers
  import opened Json
  import opened Validation

  datatype LlamaResponse = LlamaResponse(
    generation: Option<string>,
    promptTokenCount: Option<int>,
    generationTokenCount: Option<int>,
    stopReason: Option<string>)

  /** `GetResponse`: `Generation`. */
  function LlamaText(r: LlamaResponse): (t: Option<string>)
  {
    r.generation
  }

  /** `GetStopReason`: `StopReason`. */
  function LlamaStopReason(r: LlamaResponse): (s: Option<string>)
  {
    r.stopReason
  }

  datatype LlamaTextGenerationConfig = LlamaTextGenerationConfig(
    temperature: Option<real>,
    topP: Option<real>,
    maxGenLen: Option<int>)

  predicate LlamaConfigValid(c: LlamaTextGenerationConfig) {
    && RealInRange(c.temperature, 0.0, 1.0)
    && RealInRange(c.topP, 0.0, 1.0)
    && IntInRange(c.maxGenLen, 1, 2048)
  }

  function LlamaConfigChecks(c: LlamaTextGenerationConfig): seq<Check> {
    [ Check("Temperature", RealInRange(c.temperature, 0.0, 1.0)),
      Check("TopP", RealInRange(c.topP, 0.0, 1.0)),
      Check("MaxGenLen", IntInRange(c.maxGenLen, 1, 2048)) ]
  }

  function LlamaConfigProperties(c: LlamaTextGenerationConfig): seq<Property> {
    [ ("temperature", OptReal(c.temperature)),
      ("top_p", OptReal(c.topP)),
      ("max_gen_len", OptInt(c.maxGenLen)) ]
  }

  function SerializeLlamaConfig(c: LlamaTextGenerationConfig): Fields {
    Write(LlamaConfigProperties(c))
  }

  function DeserializeLlamaConfig(fs: Fields): Option<LlamaTextGenerationConfig> {
    match (ReadReal(fs, "temperature"), ReadReal(fs, "top_p"), ReadInt(fs, "max_gen_len"))
    case (Some(t), Some(p), Some(m)) => Some(LlamaTextGenerationConfig(t, p, m))
    case _ => None
  }
}
