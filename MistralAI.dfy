/** The Mistral AI types: the response with its list of outputs, and the
    text-generation configuration. */
module MistralAI {
  import opened Wrappers
  import opened Json
  import opened Validation

  datatype Output = Output(text: Option<string>, stopReason: Option<string>)

  datatype MistralResponse = MistralResponse(outputs: Option<seq<Output>>)

  /** `Outputs?.FirstOrDefault()`: null when `Outputs` is null or empty. */
  function FirstOutput(r: MistralResponse): (o: Option<Output>)
    ensures o.Some? <==> r.outputs.Some? && |r.outputs.value| > 0
    ensures o.Some? ==> o.value == r.outputs.value[0]
  {
    match r.outputs
    case None => None
    case Some(os) => if os == [] then None else Some(os[0])
  }

  function MistralText(r: MistralResponse): Option<string> {
    match FirstOutput(r)
    case None => None
    case Some(o) => o.text
  }

  function MistralStopReason(r: MistralResponse): Option<string> {
    match FirstOutput(r)
    case None => None
    case Some(o) => o.stopReason
  }

  datatype MistralTextGenerationConfig = MistralTextGenerationConfig(
    maxTokens: Option<int>,
    stop: Option<string>,
    temperature: Option<real>,
    topP: Option<real>,
    topK: Option<int>)

  /** `stop` carries no range. */
  predicate MistralConfigValid(c: MistralTextGenerationConfig) {
    && IntInRange(c.maxTokens, 1, 2048)
    && RealInRange(c.temperature, 0.0, 1.0)
    && RealInRange(c.topP, 0.0, 1.0)
    && IntInRange(c.topK, 1, 200)
  }

  function MistralConfigChecks(c: MistralTextGenerationConfig): seq<Check> {
    [ Check("MaxTokens", IntInRange(c.maxTokens, 1, 2048)),
      Check("Temperature", RealInRange(c.temperature, 0.0, 1.0)),
      Check("TopP", RealInRange(c.topP, 0.0, 1.0)),
      Check("TopK", IntInRange(c.topK, 1, 200)) ]
  }

  function MistralConfigProperties(c: MistralTextGenerationConfig): seq<Property> {
    [ ("max_tokens", OptInt(c.maxTokens)),
      ("stop", OptString(c.stop)),
      ("temperature", OptReal(c.temperature)),
      ("top_p", OptReal(c.topP)),
      ("top_k", OptInt(c.topK)) ]
  }

  function SerializeMistralConfig(c: MistralTextGenerationConfig): Fields {
    Write(MistralConfigProperties(c))
  }

  function DeserializeMistralConfig(fs: Fields): Option<MistralTextGenerationConfig> {
    match (ReadInt(fs, "max_tokens"), ReadString(fs, "stop"), ReadReal(fs, "temperature"),
           ReadReal(fs, "top_p"), ReadInt(fs, "top_k"))
    case (Some(m), Some(s), Some(t), Some(p), Some(k)) => Some(MistralTextGenerationConfig(m, s, t, p, k))
    case _ => None
  }
}
