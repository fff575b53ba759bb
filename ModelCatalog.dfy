/** The closed model catalog of Model.cs: one record per model variant, each
    with its Bedrock model id and whether it supports response streaming, and
    the `Parse`/`TryParse` lookups over it. */
module ModelCatalog {
  import opened Wrappers

  datatype Model =
    | NullModel
    | Jurassic2MidV1
    | Jurassic2UltraV1
    | TitanTextLiteV1
    | TitanTextExpressV1
    | TitanImageGeneratorV1
    | TitanEmbedTextV1
    | TitanEmbedImageV1
    | ClaudeInstantV1
    | ClaudeV2
    | ClaudeV2_1
    | CommandTextV14
    | CommandLightTextV14
    | EmbedEnglishV3
    | EmbedMultilingualV3
    | Llama213BChatV1
    | Llama270BChatV1
    | StableDiffusionXlV1
  {
    /** The `ModelId` each record passes to its base record. */
    function ModelId(): string {
      match this
      case NullModel => ""
      case Jurassic2MidV1 => "ai21.j2-mid-v1"
      case Jurassic2UltraV1 => "ai21.j2-ultra-v1"
      case TitanTextLiteV1 => "amazon.titan-text-lite-v1"
      case TitanTextExpressV1 => "amazon.titan-text-express-v1"
      case TitanImageGeneratorV1 => "amazon.titan-image-generator-v1"
      case TitanEmbedTextV1 => "amazon.titan-embed-text-v1"
      case TitanEmbedImageV1 => "amazon.titan-embed-image-v1"
      case ClaudeInstantV1 => "anthropic.claude-instant-v1"
      case ClaudeV2 => "anthropic.claude-v2"
      case ClaudeV2_1 => "anthropic.claude-v2:1"
      case CommandTextV14 => "cohere.command-text-v14"
      case CommandLightTextV14 => "cohere.command-light-text-v14"
      case EmbedEnglishV3 => "cohere.embed-english-v3"
      case EmbedMultilingualV3 => "cohere.embed-multilingual-v3"
      case Llama213BChatV1 => "meta.llama2-13b-chat-v1"
      case Llama270BChatV1 => "meta.llama2-70b-chat-v1"
      case StableDiffusionXlV1 => "stability.stable-diffusion-xl-v1"
    }

    /** The abstract intermediate record a variant derives from, if any
        (`TitanImageGeneratorV1`, the two Titan embedding records and
        `NullModel` derive from `Model` directly). */
    function Family(): Option<ModelFamily> {
      match this
      case Jurassic2MidV1 | Jurassic2UltraV1 => Some(Jurassic2)
      case TitanTextLiteV1 | TitanTextExpressV1 => Some(TitanText)
      case ClaudeInstantV1 | ClaudeV2 | ClaudeV2_1 => Some(Claude)
      case CommandTextV14 | CommandLightTextV14 => Some(CommandText)
      case EmbedEnglishV3 | EmbedMultilingualV3 => Some(Embed)
      case Llama213BChatV1 | Llama270BChatV1 => Some(Llama2)
      case StableDiffusionXlV1 => Some(StableDiffusionXl)
      case _ => None
    }

    /** The `StreamingSupported` flag each record passes to its base record. */
    function StreamingSupported(): bool {
      match this
      case TitanTextLiteV1 | TitanTextExpressV1 => true
      case ClaudeInstantV1 | ClaudeV2 | ClaudeV2_1 => true
      case CommandTextV14 | CommandLightTextV14 => true
      case Llama213BChatV1 | Llama270BChatV1 => true
      case _ => false
    }
  }

  datatype ModelFamily = Jurassic2 | TitanText | Claude | CommandText | Embed | Llama2 | StableDiffusionXl

  /** `Model.Parse`: the switch expression over the seventeen listed ids;
      any other string throws `ArgumentException` (here `Failure(modelId)`). */
  function Parse(modelId: string): (r: Result<Model, string>)
    ensures r.Success? ==> r.value != NullModel && r.value.ModelId() == modelId
    ensures r.Failure? ==> r.error == modelId
  {
    if modelId == "ai21.j2-mid-v1" then Success(Jurassic2MidV1)
    else if modelId == "ai21.j2-ultra-v1" then Success(Jurassic2UltraV1)
    else if modelId == "amazon.titan-text-lite-v1" then Success(TitanTextLiteV1)
    else if modelId == "amazon.titan-text-express-v1" then Success(TitanTextExpressV1)
    else if modelId == "amazon.titan-image-generator-v1" then Success(TitanImageGeneratorV1)
    else if modelId == "amazon.titan-embed-text-v1" then Success(TitanEmbedTextV1)
    else if modelId == "amazon.titan-embed-image-v1" then Success(TitanEmbedImageV1)
    else if modelId == "anthropic.claude-instant-v1" then Success(ClaudeInstantV1)
    else if modelId == "anthropic.claude-v2" then Success(ClaudeV2)
    else if modelId == "anthropic.claude-v2:1" then Success(ClaudeV2_1)
    else if modelId == "cohere.command-text-v14" then Success(CommandTextV14)
    else if modelId == "cohere.command-light-text-v14" then Success(CommandLightTextV14)
    else if modelId == "cohere.embed-english-v3" then Success(EmbedEnglishV3)
    else if modelId == "cohere.embed-multilingual-v3" then Success(EmbedMultilingualV3)
    else if modelId == "meta.llama2-13b-chat-v1" then Success(Llama213BChatV1)
    else if modelId == "meta.llama2-70b-chat-v1" then Success(Llama270BChatV1)
    else if modelId == "stability.stable-diffusion-xl-v1" then Success(StableDiffusionXlV1)
    else Failure(modelId)
  }

  /** `Model.TryParse`: catches `Parse`'s `ArgumentException` and hands back a
      `NullModel` instead. */
  function TryParse(modelId: string): (r: (bool, Model))
    ensures r.0 <==> Parse(modelId).Success?
    ensures r.0 ==> r.1 == Parse(modelId).value
    ensures !r.0 ==> r.1 == NullModel && r.1.ModelId() == "" && !r.1.StreamingSupported()
  {
    match Parse(modelId)
    case Success(m) => (true, m)
    case Failure(_) => (false, NullModel)
  }

  function IsSupported(modelId: string): bool {
    TryParse(modelId).0
  }

  function IsStreamingSupported(modelId: string): bool {
    var (ok, model) := TryParse(modelId);
    ok && model.StreamingSupported()
  }

  /** The variants `Parse` can produce, in the order of its switch arms. */
  const Catalog: seq<Model> := [
    Jurassic2MidV1, Jurassic2UltraV1, TitanTextLiteV1, TitanTextExpressV1,
    TitanImageGeneratorV1, TitanEmbedTextV1, TitanEmbedImageV1,
    ClaudeInstantV1, ClaudeV2, ClaudeV2_1, CommandTextV14, CommandLightTextV14,
    EmbedEnglishV3, EmbedMultilingualV3, Llama213BChatV1, Llama270BChatV1,
    StableDiffusionXlV1
  ]

  // ---------------------------------------------------------------------
  // Properties of the catalog

  /** Every listed record is reached by parsing its own id: `Parse` and
      `ModelId` are inverse on the catalog. */
  lemma ParseModelId(m: Model)
    requires m != NullModel
    ensures Parse(m.ModelId()) == Success(m)
  {
    match m
    case Jurassic2MidV1 | Jurassic2UltraV1 => ParseAi21Ids(m);
    case TitanTextLiteV1 | TitanTextExpressV1 | TitanImageGeneratorV1 | TitanEmbedTextV1 | TitanEmbedImageV1 => ParseAmazonIds(m);
    case ClaudeInstantV1 | ClaudeV2 | ClaudeV2_1 => ParseAnthropicIds(m);
    case CommandTextV14 | CommandLightTextV14 | EmbedEnglishV3 | EmbedMultilingualV3 => ParseCohereIds(m);
    case Llama213BChatV1 | Llama270BChatV1 | StableDiffusionXlV1 => ParseMetaAndStabilityIds(m);
  }

  /** `ParseModelId` for the AI21 Labs records. */
  lemma ParseAi21Ids(m: Model)
    requires m.Jurassic2MidV1? || m.Jurassic2UltraV1?
    ensures Parse(m.ModelId()) == Success(m)
  {
  }

  /** `ParseModelId` for the Amazon records. */
  lemma ParseAmazonIds(m: Model)
    requires m.TitanTextLiteV1? || m.TitanTextExpressV1? || m.TitanImageGeneratorV1? || m.TitanEmbedTextV1? || m.TitanEmbedImageV1?
    ensures Parse(m.ModelId()) == Success(m)
  {
  }

  /** `ParseModelId` for the Anthropic records. */
  lemma ParseAnthropicIds(m: Model)
    requires m.ClaudeInstantV1? || m.ClaudeV2? || m.ClaudeV2_1?
    ensures Parse(m.ModelId()) == Success(m)
  {
  }

  /** `ParseModelId` for the Cohere records. */
  lemma ParseCohereIds(m: Model)
    requires m.CommandTextV14? || m.CommandLightTextV14? || m.EmbedEnglishV3? || m.EmbedMultilingualV3?
    ensures Parse(m.ModelId()) == Success(m)
  {
  }

  /** `ParseModelId` for the Meta and Stability AI records. */
  lemma ParseMetaAndStabilityIds(m: Model)
    requires m.Llama213BChatV1? || m.Llama270BChatV1? || m.StableDiffusionXlV1?
    ensures Parse(m.ModelId()) == Success(m)
  {
  }

  /** The catalog lists seventeen records, all of them different from
      `NullModel`, and a string parses exactly when it is one of their ids. */
  lemma CatalogIsParseDomain(modelId: string)
    ensures |Catalog| == 17 && NullModel !in Catalog
    ensures Parse(modelId).Success? <==> exists m :: m in Catalog && m.ModelId() == modelId
  {
    if Parse(modelId).Success? {
      assert Parse(modelId).value in Catalog;
    }
    if m :| m in Catalog && m.ModelId() == modelId {
      ParseModelId(m);
    }
  }

  /** Distinct records have distinct ids (so `Parse` is injective). */
  lemma ModelIdInjective(m1: Model, m2: Model)
    requires m1 != NullModel && m2 != NullModel
    ensures m1.ModelId() == m2.ModelId() ==> m1 == m2
  {
    ParseModelId(m1);
    ParseModelId(m2);
  }

  lemma ParseInjective(id1: string, id2: string)
    requires Parse(id1).Success? && Parse(id2).Success?
    ensures Parse(id1) == Parse(id2) <==> id1 == id2
  {
  }

  /** The empty string is not a model id. */
  lemma ParseRejectsEmpty()
    ensures Parse("") == Failure("")
    ensures TryParse("") == (false, NullModel)
  {
  }

  /** `IsSupported` agrees with `Parse`, and streaming support implies
      support; it holds exactly for the Titan Text, Claude, Command and
      Llama 2 records. */
  lemma IsStreamingSupportedSpec(modelId: string)
    ensures IsSupported(modelId) <==> Parse(modelId).Success?
    ensures IsStreamingSupported(modelId) ==> IsSupported(modelId)
    ensures IsStreamingSupported(modelId) <==>
      Parse(modelId).Success? &&
      Parse(modelId).value.Family() in {Some(TitanText), Some(Claude), Some(CommandText), Some(Llama2)}
  {
  }
}
