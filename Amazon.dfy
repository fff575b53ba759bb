/** The Amazon Titan types: the text and streaming-text responses with their
    accessors, the image-generation configuration (ranges, default-value
    omission, camel-case quality names), the text-to-image parameters and the
    multimodal embedding configuration (allowed values). */
module Amazon {
  import opened Wrappers
  import opened Json
  import opened Validation

  // ---------------------------------------------------------------------
  // Titan text streaming chunk

  datatype TitanTextStreamingResponse = TitanTextStreamingResponse(
    outputText: Option<string>,
    totalOutputTextTokenCount: Option<int>,
    index: Option<int>,
    completionReason: Option<string>,
    inputTextTokenCount: Option<int>)

  /** `GetResponse`: the chunk's `OutputText`. */
  function StreamingText(r: TitanTextStreamingResponse): (t: Option<string>)
  {
    r.outputText
  }

  /** `GetStopReason`: the chunk's `CompletionReason`. */
  function StreamingStopReason(r: TitanTextStreamingResponse): (s: Option<string>)
  {
    r.completionReason
  }

  // ---------------------------------------------------------------------
  // Titan text response

  datatype AmazonTitanTextOutput = AmazonTitanTextOutput(
    tokenCount: int,
    outputText: Option<string>,
    completionReason: Option<string>)

  datatype TitanTextResponse = TitanTextResponse(
    inputTextTokenCount: int,
    results: Option<seq<AmazonTitanTextOutput>>)

  /** `Results?.FirstOrDefault()`: null when `Results` is null or empty. */
  function FirstResult(r: TitanTextResponse): (o: Option<AmazonTitanTextOutput>)
    ensures o.Some? <==> r.results.Some? && |r.results.value| > 0
    ensures o.Some? ==> o.value == r.results.value[0]
  {
    match r.results
    case None => None
    case Some(rs) => if rs == [] then None else Some(rs[0])
  }

  function TextResponseText(r: TitanTextResponse): Option<string> {
    match FirstResult(r)
    case None => None
    case Some(o) => o.outputText
  }

  function TextResponseStopReason(r: TitanTextResponse): Option<string> {
    match FirstResult(r)
    case None => None
    case Some(o) => o.completionReason
  }

  // ---------------------------------------------------------------------
  // Titan image generation configuration

  datatype ImageQuality = Standard | Premium

  /** The camel-case name the image invoker's enum converter writes. */
  function QualityName(q: ImageQuality): string {
    match q
    case Standard => "standard"
    case Premium => "premium"
  }

  function QualityFromName(s: string): Option<ImageQuality> {
    if s == "standard" then Some(Standard)
    else if s == "premium" then Some(Premium)
    else None
  }

  /** Every property is a plain value type, so a new configuration holds
      zeros and the first quality. */
  datatype TitanImageGenerationConfig = TitanImageGenerationConfig(
    numberOfImages: int,
    quality: ImageQuality,
    height: int,
    width: int,
    cfgScale: real,
    seed: int)

  const DefaultImageGenerationConfig: TitanImageGenerationConfig :=
    TitanImageGenerationConfig(0, Standard, 0, 0, 0.0, 0)

  /** The upper bound on `Seed`, as declared. */
  const MaxSeed: int := 214783647

  predicate ImageGenerationConfigValid(c: TitanImageGenerationConfig) {
    && 1 <= c.numberOfImages <= 5
    && 1 <= c.height <= 1024
    && 1 <= c.width <= 1024
    && 1.0 <= c.cfgScale <= 10.0
    && 0 <= c.seed <= MaxSeed
  }

  function ImageGenerationConfigChecks(c: TitanImageGenerationConfig): seq<Check> {
    [ Check("NumberOfImages", IntInRange(Some(c.numberOfImages), 1, 5)),
      Check("Height", IntInRange(Some(c.height), 1, 1024)),
      Check("Width", IntInRange(Some(c.width), 1, 1024)),
      Check("CfgScale", RealInRange(Some(c.cfgScale), 1.0, 10.0)),
      Check("Seed", IntInRange(Some(c.seed), 0, MaxSeed)) ]
  }

  /** `JsonIgnoreCondition.WhenWritingDefault` on an int or float. */
  function NonZeroInt(i: int): Option<Json> {
    if i == 0 then None else Some(JInt(i))
  }

  function NonZeroReal(r: real): Option<Json> {
    if r == 0.0 then None else Some(JReal(r))
  }

  /** Properties in serialization order: the two without an order attribute
      in declaration order, then cfgScale (3), height (4), width (5) and
      seed (6). */
  function ImageGenerationConfigProperties(c: TitanImageGenerationConfig): seq<Property> {
    [ ("numberOfImages", NonZeroInt(c.numberOfImages)),
      ("quality", Some(JString(QualityName(c.quality)))),
      ("cfgScale", NonZeroReal(c.cfgScale)),
      ("height", NonZeroInt(c.height)),
      ("width", NonZeroInt(c.width)),
      ("seed", Some(JInt(c.seed))) ]
  }

  function SerializeImageGenerationConfig(c: TitanImageGenerationConfig): Fields {
    Write(ImageGenerationConfigProperties(c))
  }

  /** Reading back: an omitted value-type property keeps its zero. */
  function ReadIntOrZero(fs: Fields, key: string): Option<int> {
    match Lookup(fs, key)
    case None => Some(0)
    case Some(JInt(i)) => Some(i)
    case Some(_) => None
  }

  function ReadRealOrZero(fs: Fields, key: string): Option<real> {
    match Lookup(fs, key)
    case None => Some(0.0)
    case Some(JReal(r)) => Some(r)
    case Some(_) => None
  }

  function ReadQuality(fs: Fields): Option<ImageQuality> {
    match Lookup(fs, "quality")
    case None => Some(Standard)
    case Some(JString(s)) => QualityFromName(s)
    case Some(_) => None
  }

  function DeserializeImageGenerationConfig(fs: Fields): Option<TitanImageGenerationConfig> {
    match (ReadIntOrZero(fs, "numberOfImages"), ReadQuality(fs), ReadRealOrZero(fs, "cfgScale"),
           ReadIntOrZero(fs, "height"), ReadIntOrZero(fs, "width"), ReadIntOrZero(fs, "seed"))
    case (Some(n), Some(q), Some(cfg), Some(h), Some(w), Some(s)) =>
      Some(TitanImageGenerationConfig(n, q, h, w, cfg, s))
    case _ => None
  }

  // ---------------------------------------------------------------------
  // Titan image text-to-image parameters

  datatype TitanImageTextToImageParams = TitanImageTextToImageParams(
    text: string,
    negativeText: Option<string>)

  /** `text` always, `negativeText` only when non-null. */
  function SerializeTextToImageParams(p: TitanImageTextToImageParams): Fields {
    Write([("text", Some(JString(p.text))), ("negativeText", OptString(p.negativeText))])
  }

  // ---------------------------------------------------------------------
  // Titan multimodal embedding configuration

  datatype TitanMultimodalEmbeddingConfig = TitanMultimodalEmbeddingConfig(
    outputEmbeddingLength: Option<int>)

  const AllowedEmbeddingLengths: set<int> := {256, 384, 1024}

  /** `[AllowedValues(256, 384, 1024)]`: the value must equal one of the
      listed values; null equals none of them. */
  predicate EmbeddingConfigValid(c: TitanMultimodalEmbeddingConfig) {
    c.outputEmbeddingLength.Some? && c.outputEmbeddingLength.value in AllowedEmbeddingLengths
  }

  function EmbeddingConfigChecks(c: TitanMultimodalEmbeddingConfig): seq<Check> {
    [ Check("OutputEmbeddingLength", EmbeddingConfigValid(c)) ]
  }

  /** No ignore condition: a null length is written as JSON null. */
  function SerializeEmbeddingConfig(c: TitanMultimodalEmbeddingConfig): Fields {
    [("outputEmbeddingLength", match c.outputEmbeddingLength case None => JNull case Some(n) => JInt(n))]
  }

  function DeserializeEmbeddingConfig(fs: Fields): Option<TitanMultimodalEmbeddingConfig> {
    match Lookup(fs, "outputEmbeddingLength")
    case None => Some(TitanMultimodalEmbeddingConfig(None))
    case Some(JNull) => Some(TitanMultimodalEmbeddingConfig(None))
    case Some(JInt(n)) => Some(TitanMultimodalEmbeddingConfig(Some(n)))
    case Some(_) => None
  }
}
