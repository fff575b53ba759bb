/** The Anthropic types: the Claude text-completion response, the Claude
    Messages response and its six-kind streaming chunk union, and the two
    request configurations with their range checks and serialized shape. */
module Anthropic {
  import opened Wrappers
  import opened Json
  import opened Validation

  // ---------------------------------------------------------------------
  // Message content

  /** An image source; its `type` is always "base64". */
  datatype ClaudeImageSource = ClaudeImageSource(mediaType: string, data: string)

  const ImageSourceType: string := "base64"

  /** `IClaudeContent`, discriminated by "type": "text" or "image". */
  datatype ClaudeContent =
    | ClaudeTextContent(text: string)
    | ClaudeImageContent(source: ClaudeImageSource)

  datatype ClaudeMessage = ClaudeMessage(role: string, content: seq<ClaudeContent>)

  /** What an accessor does: return a (nullable) string, or throw. The casts
      `(ClaudeTextContent?)block` throw `InvalidCastException` on an image
      block; `FirstOrDefault` throws `ArgumentNullException` on a null
      sequence. */
  datatype Access = Returned(value: Option<string>) | InvalidCast | ArgumentNull

  // ---------------------------------------------------------------------
  // Claude text completion response (also the Claude streaming chunk)

  datatype ClaudeResponse = ClaudeResponse(
    completion: Option<string>,
    stopReason: Option<string>,
    stop: Option<string>)

  function ClaudeResponseText(r: ClaudeResponse): Option<string> {
    r.completion
  }

  function ClaudeResponseStopReason(r: ClaudeResponse): Option<string> {
    r.stopReason
  }

  // ---------------------------------------------------------------------
  // Claude Messages response

  datatype ClaudeUsage = ClaudeUsage(inputTokens: int, outputTokens: int)

  /** A `ClaudeMessagesResponse`: the inherited `ClaudeMessage` fields
      (`content` may be null after deserialization) and its own. */
  datatype ClaudeMessagesResponse = ClaudeMessagesResponse(
    role: string,
    content: Option<seq<ClaudeContent>>,
    id: Option<string>,
    model: Option<string>,
    responseType: Option<string>,
    stopReason: Option<string>,
    stopSequence: Option<string>,
    usage: Option<ClaudeUsage>)

  /** The cast `(ClaudeTextContent?)block`, with `null` for no block. */
  function TextOfBlock(block: Option<ClaudeContent>): (r: Access)
    ensures !r.ArgumentNull?
  {
    match block
    case None => Returned(None)
    case Some(ClaudeTextContent(t)) => Returned(Some(t))
    case Some(ClaudeImageContent(_)) => InvalidCast
  }

  /** `GetResponse`: the text of the last content block. */
  function MessagesResponseText(r: ClaudeMessagesResponse): (a: Access)
    ensures a == Returned(None) <==> r.content.None? || r.content.value == []
    ensures a.InvalidCast? <==>
      r.content.Some? && r.content.value != [] && Last(r.content.value).ClaudeImageContent?
    ensures a.Returned? && a.value.Some? ==>
      r.content.Some? && r.content.value != [] && Last(r.content.value) == ClaudeTextContent(a.value.value)
    ensures !a.ArgumentNull?
  {
    match r.content
    case None => Returned(None)
    case Some(blocks) => TextOfBlock(if blocks == [] then None else Some(Last(blocks)))
  }

  function Last<T>(s: seq<T>): T
    requires s != []
  {
    s[|s| - 1]
  }

  function MessagesResponseStopReason(r: ClaudeMessagesResponse): Option<string> {
    r.stopReason
  }

  // ---------------------------------------------------------------------
  // Claude Messages streaming chunks

  datatype BlockStartChunkContentBlock = BlockStartChunkContentBlock(blockType: Option<string>, text: Option<string>)

  datatype BlockDeltaChunkContentBlock = BlockDeltaChunkContentBlock(deltaType: Option<string>, text: Option<string>)

  datatype MessageDelta = MessageDelta(stopReason: Option<string>, stopSequence: Option<string>)

  datatype MessageDeltaChunkUsage = MessageDeltaChunkUsage(outputTokens: int)

  datatype AmazonBedrockInvocationMetrics = AmazonBedrockInvocationMetrics(
    inputTokenCount: Option<int>,
    outputTokenCount: Option<int>,
    invocationLatency: Option<int>,
    firstByteLatency: Option<int>)

  /** `IClaudeMessagesChunk`: one variant per derived class, each carrying
      only that class's own fields. */
  datatype ClaudeMessagesChunk =
    | MessageStartChunk(chunkType: Option<string>, message: Option<ClaudeMessagesResponse>)
    | ContentBlockStartChunk(index: Option<int>, contentBlock: Option<BlockStartChunkContentBlock>)
    | ContentBlockDeltaChunk(index: Option<int>, delta: Option<BlockDeltaChunkContentBlock>)
    | ContentBlockStopChunk(index: Option<int>)
    | MessageDeltaChunk(messageDelta: Option<MessageDelta>, usage: Option<MessageDeltaChunkUsage>)
    | MessageStopChunk(invocationMetrics: Option<AmazonBedrockInvocationMetrics>)

  datatype ChunkKind = MessageStart | ContentBlockStart | ContentBlockDelta | ContentBlockStop | MessageDeltaKind | MessageStop

  /** The JSON property that selects the chunk's class. */
  const TypeDiscriminator: string := "type"

  function KindOf(c: ClaudeMessagesChunk): ChunkKind {
    match c
    case MessageStartChunk(_, _) => MessageStart
    case ContentBlockStartChunk(_, _) => ContentBlockStart
    case ContentBlockDeltaChunk(_, _) => ContentBlockDelta
    case ContentBlockStopChunk(_) => ContentBlockStop
    case MessageDeltaChunk(_, _) => MessageDeltaKind
    case MessageStopChunk(_) => MessageStop
  }

  /** The discriminator value each `[JsonDerivedType]` registers. */
  function Tag(k: ChunkKind): string {
    match k
    case MessageStart => "message_start"
    case ContentBlockStart => "content_block_start"
    case ContentBlockDelta => "content_block_delta"
    case ContentBlockStop => "content_block_stop"
    case MessageDeltaKind => "message_delta"
    case MessageStop => "message_stop"
  }

  /** The deserializer's dispatch on the discriminator; an unregistered value
      selects no class, and deserialization fails. */
  function KindOfTag(tag: string): (k: Option<ChunkKind>)
    ensures k.Some? ==> Tag(k.value) == tag
  {
    if tag == "message_start" then Some(MessageStart)
    else if tag == "content_block_start" then Some(ContentBlockStart)
    else if tag == "content_block_delta" then Some(ContentBlockDelta)
    else if tag == "content_block_stop" then Some(ContentBlockStop)
    else if tag == "message_delta" then Some(MessageDeltaKind)
    else if tag == "message_stop" then Some(MessageStop)
    else None
  }

  /** `GetResponse` of each chunk class. */
  function ChunkText(c: ClaudeMessagesChunk): Access {
    match c
    case MessageStartChunk(_, message) =>
      (match message
       case None => Returned(None)
       case Some(m) =>
         (match m.content
          case None => ArgumentNull
          case Some(blocks) => TextOfBlock(if blocks == [] then None else Some(blocks[0]))))
    case ContentBlockStartChunk(_, block) =>
      Returned(if block.None? then None else block.value.text)
    case ContentBlockDeltaChunk(_, delta) =>
      Returned(if delta.None? then None else delta.value.text)
    case ContentBlockStopChunk(_) => Returned(Some(""))
    case MessageDeltaChunk(_, _) => Returned(Some(""))
    case MessageStopChunk(_) => Returned(None)
  }

  /** `GetStopReason` of each chunk class. */
  function ChunkStopReason(c: ClaudeMessagesChunk): Option<string> {
    match c
    case MessageDeltaChunk(delta, _) => if delta.None? then None else delta.value.stopReason
    case _ => None
  }

  // ---------------------------------------------------------------------
  // Claude text-completion configuration

  const DefaultMaxTokensToSample: int := 200

  datatype ClaudeTextGenerationConfig = ClaudeTextGenerationConfig(
    temperature: Option<real>,
    topP: Option<real>,
    topK: Option<int>,
    maxTokensToSample: int,
    stopSequences: Option<seq<string>>)

  /** `new ClaudeTextGenerationConfig()`. */
  const DefaultTextGenerationConfig: ClaudeTextGenerationConfig :=
    ClaudeTextGenerationConfig(None, None, None, DefaultMaxTokensToSample, None)

  /** The declared ranges. */
  predicate TextGenerationConfigValid(c: ClaudeTextGenerationConfig) {
    && RealInRange(c.temperature, 0.0, 1.0)
    && RealInRange(c.topP, 0.0, 1.0)
    && IntInRange(c.topK, 0, 500)
    && 0 <= c.maxTokensToSample <= 4096
  }

  function TextGenerationConfigChecks(c: ClaudeTextGenerationConfig): seq<Check> {
    [ Check("Temperature", RealInRange(c.temperature, 0.0, 1.0)),
      Check("TopP", RealInRange(c.topP, 0.0, 1.0)),
      Check("TopK", IntInRange(c.topK, 0, 500)),
      Check("MaxTokensToSample", IntInRange(Some(c.maxTokensToSample), 0, 4096)) ]
  }

  function TextGenerationConfigProperties(c: ClaudeTextGenerationConfig): seq<Property> {
    [ ("temperature", OptReal(c.temperature)),
      ("top_p", OptReal(c.topP)),
      ("top_k", OptInt(c.topK)),
      ("max_tokens_to_sample", Some(JInt(c.maxTokensToSample))),
      ("stop_sequences", OptStrings(c.stopSequences)) ]
  }

  function SerializeTextGenerationConfig(c: ClaudeTextGenerationConfig): Fields {
    Write(TextGenerationConfigProperties(c))
  }

  /** Reading the object back; a missing `max_tokens_to_sample` takes the
      property's initializer. */
  function DeserializeTextGenerationConfig(fs: Fields): Option<ClaudeTextGenerationConfig> {
    match (ReadReal(fs, "temperature"), ReadReal(fs, "top_p"), ReadInt(fs, "top_k"),
           ReadInt(fs, "max_tokens_to_sample"), ReadStrings(fs, "stop_sequences"))
    case (Some(t), Some(p), Some(k), Some(m), Some(s)) =>
      Some(ClaudeTextGenerationConfig(t, p, k, m.GetOr(DefaultMaxTokensToSample), s))
    case _ => None
  }

  // ---------------------------------------------------------------------
  // Claude Messages configuration

  const AnthropicVersion: string := "bedrock-2023-05-31"

  datatype ClaudeMessagesConfig = ClaudeMessagesConfig(
    maxTokens: int,
    system: Option<string>,
    messages: seq<ClaudeMessage>,
    temperature: Option<real>,
    topP: Option<real>,
    topK: Option<int>,
    stopSequences: Option<seq<string>>)

  predicate MessagesConfigValid(c: ClaudeMessagesConfig) {
    && RealInRange(c.temperature, 0.0, 1.0)
    && RealInRange(c.topP, 0.0, 1.0)
    && IntInRange(c.topK, 0, 500)
  }

  function MessagesConfigChecks(c: ClaudeMessagesConfig): seq<Check> {
    [ Check("Temperature", RealInRange(c.temperature, 0.0, 1.0)),
      Check("TopP", RealInRange(c.topP, 0.0, 1.0)),
      Check("TopK", IntInRange(c.topK, 0, 500)) ]
  }

  function ContentToJson(block: ClaudeContent): Json {
    match block
    case ClaudeTextContent(t) =>
      JObject([("type", JString("text")), ("text", JString(t))])
    case ClaudeImageContent(src) =>
      JObject([("type", JString("image")),
               ("source", JObject([("type", JString(ImageSourceType)),
                                   ("media_type", JString(src.mediaType)),
                                   ("data", JString(src.data))]))])
  }

  function ContentFromJson(j: Json): Option<ClaudeContent> {
    match j
    case JObject(fs) =>
      (match (Lookup(fs, "type"), Lookup(fs, "text"), Lookup(fs, "source"))
       case (Some(JString("text")), Some(JString(t)), _) => Some(ClaudeTextContent(t))
       case (Some(JString("image")), _, Some(JObject(src))) =>
         (match (Lookup(src, "media_type"), Lookup(src, "data"))
          case (Some(JString(mt)), Some(JString(d))) => Some(ClaudeImageContent(ClaudeImageSource(mt, d)))
          case _ => None)
       case _ => None)
    case _ => None
  }

  function ContentsToJson(blocks: seq<ClaudeContent>): (js: seq<Json>)
    ensures |js| == |blocks|
    ensures forall i :: 0 <= i < |blocks| ==> js[i] == ContentToJson(blocks[i])
  {
    if blocks == [] then [] else [ContentToJson(blocks[0])] + ContentsToJson(blocks[1..])
  }

  function ContentsFromJson(js: seq<Json>): Option<seq<ClaudeContent>> {
    if js == [] then Some([])
    else match (ContentFromJson(js[0]), ContentsFromJson(js[1..]))
         case (Some(b), Some(rest)) => Some([b] + rest)
         case _ => None
  }

  function MessageToJson(m: ClaudeMessage): Json {
    JObject([("role", JString(m.role)), ("content", JArray(ContentsToJson(m.content)))])
  }

  function MessageFromJson(j: Json): Option<ClaudeMessage> {
    match j
    case JObject(fs) =>
      (match (Lookup(fs, "role"), Lookup(fs, "content"))
       case (Some(JString(role)), Some(JArray(items))) =>
         (match ContentsFromJson(items)
          case Some(blocks) => Some(ClaudeMessage(role, blocks))
          case None => None)
       case _ => None)
    case _ => None
  }

  function MessagesToJson(ms: seq<ClaudeMessage>): (js: seq<Json>)
    ensures |js| == |ms|
    ensures forall i :: 0 <= i < |ms| ==> js[i] == MessageToJson(ms[i])
  {
    if ms == [] then [] else [MessageToJson(ms[0])] + MessagesToJson(ms[1..])
  }

  function MessagesFromJson(js: seq<Json>): Option<seq<ClaudeMessage>> {
    if js == [] then Some([])
    else match (MessageFromJson(js[0]), MessagesFromJson(js[1..]))
         case (Some(m), Some(rest)) => Some([m] + rest)
         case _ => None
  }

  function MessagesConfigProperties(c: ClaudeMessagesConfig): seq<Property> {
    [ ("anthropic_version", Some(JString(AnthropicVersion))),
      ("max_tokens", Some(JInt(c.maxTokens))),
      ("system", OptString(c.system)),
      ("messages", Some(JArray(MessagesToJson(c.messages)))),
      ("temperature", OptReal(c.temperature)),
      ("top_p", OptReal(c.topP)),
      ("top_k", OptInt(c.topK)),
      ("stop_sequences", OptStrings(c.stopSequences)) ]
  }

  function SerializeMessagesConfig(c: ClaudeMessagesConfig): Fields {
    Write(MessagesConfigProperties(c))
  }

  /** Reading the object back: `max_tokens` is required, a missing
      `messages` takes its initializer `[]`, and `anthropic_version` is
      get-only, so its value is not read. */
  function DeserializeMessagesConfig(fs: Fields): Option<ClaudeMessagesConfig> {
    var messages :=
      match Lookup(fs, "messages")
      case None => Some([])
      case Some(JArray(items)) => MessagesFromJson(items)
      case Some(_) => None;
    match (Lookup(fs, "max_tokens"), ReadString(fs, "system"), messages,
           ReadReal(fs, "temperature"), ReadReal(fs, "top_p"), ReadInt(fs, "top_k"),
           ReadStrings(fs, "stop_sequences"))
    case (Some(JInt(mt)), Some(sys), Some(ms), Some(t), Some(p), Some(k), Some(s)) =>
      Some(ClaudeMessagesConfig(mt, sys, ms, t, p, k, s))
    case _ => None
  }
}
