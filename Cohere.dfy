/** The Cohere types: the Command streaming chunk with its `Reason` enum and
    accessors, and the Embed configuration with its enum wire names. */
module Cohere {
  import opened Wrappers
  import opened Json
  import Validation

  // ---------------------------------------------------------------------
  // Command streaming chunk

  datatype Reason = COMPLETE | MAX_TOKENS | ERROR | ERROR_TOXIC

  /** `Reason.ToString()`: the member's own name. */
  function ReasonName(r: Reason): string {
    match r
    case COMPLETE => "COMPLETE"
    case MAX_TOKENS => "MAX_TOKENS"
    case ERROR => "ERROR"
    case ERROR_TOXIC => "ERROR_TOXIC"
  }

  function ReasonFromName(s: string): Option<Reason> {
    if s == "COMPLETE" then Some(COMPLETE)
    else if s == "MAX_TOKENS" then Some(MAX_TOKENS)
    else if s == "ERROR" then Some(ERROR)
    else if s == "ERROR_TOXIC" then Some(ERROR_TOXIC)
    else None
  }

  const Reasons: seq<Reason> := [COMPLETE, MAX_TOKENS, ERROR, ERROR_TOXIC]

  datatype CommandStreamingResponse = CommandStreamingResponse(
    finishReason: Option<Reason>,
    id: Option<string>,
    text: Option<string>,
    prompt: Option<string>,
    likelihood: Option<real>,
    tokenLikelihoods: Option<seq<Fields>>,
    isFinished: Option<bool>,
    index: Option<int>)

  /** `GetResponse`: the chunk's `Text`. */
  function CommandText(r: CommandStreamingResponse): (t: Option<string>)
  {
    r.text
  }

  /** `GetStopReason`: the name of `FinishReason`, null when it is absent. */
  function CommandStopReason(r: CommandStreamingResponse): Option<string> {
    match r.finishReason
    case None => None
    case Some(reason) => Some(ReasonName(reason))
  }

  // ---------------------------------------------------------------------
  // Embed configuration

  datatype InputTypeEnum = search_document | search_query | classification | clustering

  datatype TruncateEnum = NONE | START | END

  function InputTypeName(t: InputTypeEnum): string {
    match t
    case search_document => "search_document"
    case search_query => "search_query"
    case classification => "classification"
    case clustering => "clustering"
  }

  function InputTypeFromName(s: string): Option<InputTypeEnum> {
    if s == "search_document" then Some(search_document)
    else if s == "search_query" then Some(search_query)
    else if s == "classification" then Some(classification)
    else if s == "clustering" then Some(clustering)
    else None
  }

  function TruncateName(t: TruncateEnum): string {
    match t
    case NONE => "NONE"
    case START => "START"
    case END => "END"
  }

  function TruncateFromName(s: string): Option<TruncateEnum> {
    if s == "NONE" then Some(NONE)
    else if s == "START" then Some(START)
    else if s == "END" then Some(END)
    else None
  }

  datatype EmbedEmbeddingGenerationConfig = EmbedEmbeddingGenerationConfig(
    inputType: InputTypeEnum,
    truncate: Option<TruncateEnum>)

  /** `new EmbedEmbeddingGenerationConfig()`. */
  const DefaultEmbedConfig: EmbedEmbeddingGenerationConfig :=
    EmbedEmbeddingGenerationConfig(search_document, None)

  /** The configuration declares no range or allowed-values attribute, so
      validation has nothing to check. */
  function EmbedConfigChecks(c: EmbedEmbeddingGenerationConfig): seq<Validation.Check> {
    []
  }

  function EmbedConfigProperties(c: EmbedEmbeddingGenerationConfig): seq<Property> {
    [ ("input_type", Some(JString(InputTypeName(c.inputType)))),
      ("truncate", match c.truncate case None => None case Some(t) => Some(JString(TruncateName(t)))) ]
  }

  function SerializeEmbedConfig(c: EmbedEmbeddingGenerationConfig): Fields {
    Write(EmbedConfigProperties(c))
  }

  function DeserializeEmbedConfig(fs: Fields): Option<EmbedEmbeddingGenerationConfig> {
    var inputType :=
      match Lookup(fs, "input_type")
      case None => Some(search_document)
      case Some(JString(s)) => InputTypeFromName(s)
      case Some(_) => None;
    var truncate :=
      match Lookup(fs, "truncate")
      case None => Some(None)
      case Some(JNull) => Some(None)
      case Some(JString(s)) => (match TruncateFromName(s) case None => None case Some(t) => Some(Some(t)))
      case Some(_) => None;
    match (inputType, truncate)
    case (Some(i), Some(t)) => Some(EmbedEmbeddingGenerationConfig(i, t))
    case _ => None
  }
}
