/** The string catalog of ModelIds.cs: the private `Ids` and
    `StreamingSupported` lists, the named accessors that index into `Ids`,
    and the two `Contains` lookups. */
module ModelIds {

  const Ids: seq<string> := [
    "anthropic.claude-instant-v1",
    "anthropic.claude-v1",
    "anthropic.claude-v2",
    "stability.stable-diffusion-xl-v0",
    "amazon.titan-text-lite-v1",
    "amazon.titan-text-express-v1",
    "amazon.titan-image-generator-v1",
    "cohere.command-text-v14",
    "ai21.j2-mid-v1",
    "ai21.j2-ultra-v1",
    "anthropic.claude-v2:1",
    "cohere.command-light-text-v14",
    "meta.llama2-13b-chat-v1",
    "meta.llama2-70b-chat-v1",
    "meta.llama2-13b-v1",
    "meta.llama2-70b-v1",
    "amazon.titan-embed-text-v1",
    "amazon.titan-embed-image-v1",
    "cohere.embed-english-v3",
    "cohere.embed-multilingual-v3"
  ]

  const StreamingSupported: seq<string> := [
    "anthropic.claude-instant-v1",
    "anthropic.claude-v2",
    "amazon.titan-text-lite-v1",
    "amazon.titan-text-express-v1",
    "anthropic.claude-v2:1",
    "cohere.command-text-v14",
    "cohere.command-light-text-v14",
    "meta.llama2-13b-chat-v1",
    "meta.llama2-70b-chat-v1",
    "meta.llama2-13b-v1",
    "meta.llama2-70b-v1"
  ]

  /** The named accessors, each an index into `Ids`. */
  datatype Accessor =
    | ANTHROPIC_CLAUDE_INSTANT_V1
    | ANTHROPIC_CLAUDE_V1
    | ANTHROPIC_CLAUDE_V2
    | ANTHROPIC_CLAUDE_V2_1
    | STABILITY_AI_STABLE_DIFFUSION_XL_V0
    | AMAZON_TITAN_TEXT_LITE_G1_V1
    | AMAZON_TITAN_TEXT_EXPRESS_G1_V1
    | AMAZON_TITAN_IMAGE_GENERATOR_G1_V1
    | AMAZON_TITAN_EMBEDDING_TEXT_G1_V1
    | AMAZON_TITAN_EMBEDDING_IMAGE_G1_V1
    | COHERE_COMMAND_TEXT_V14
    | COHERE_COMMAND_TEXT_LIGHT_V14
    | COHERE_EMBED_ENGLISH_V3
    | COHERE_EMBED_MULTILINGUAL_V3
    | AI21_LABS_JURASSIC_V2_MID_V1
    | AI21_LABS_JURASSIC_V2_ULTRA_V1
    | META_LLAMA2_13B_CHAT_V1
    | META_LLAMA2_70B_CHAT_V1
    | META_LLAMA2_13B_V1
    | META_LLAMA2_70B_V1

  /** The index each accessor reads. */
  function Index(a: Accessor): nat {
    match a
    case ANTHROPIC_CLAUDE_INSTANT_V1 => 0
    case ANTHROPIC_CLAUDE_V1 => 1
    case ANTHROPIC_CLAUDE_V2 => 2
    case ANTHROPIC_CLAUDE_V2_1 => 10
    case STABILITY_AI_STABLE_DIFFUSION_XL_V0 => 3
    case AMAZON_TITAN_TEXT_LITE_G1_V1 => 4
    case AMAZON_TITAN_TEXT_EXPRESS_G1_V1 => 5
    case AMAZON_TITAN_IMAGE_GENERATOR_G1_V1 => 6
    case AMAZON_TITAN_EMBEDDING_TEXT_G1_V1 => 16
    case AMAZON_TITAN_EMBEDDING_IMAGE_G1_V1 => 17
    case COHERE_COMMAND_TEXT_V14 => 7
    case COHERE_COMMAND_TEXT_LIGHT_V14 => 11
    case COHERE_EMBED_ENGLISH_V3 => 18
    case COHERE_EMBED_MULTILINGUAL_V3 => 19
    case AI21_LABS_JURASSIC_V2_MID_V1 => 8
    case AI21_LABS_JURASSIC_V2_ULTRA_V1 => 9
    case META_LLAMA2_13B_CHAT_V1 => 12
    case META_LLAMA2_70B_CHAT_V1 => 13
    case META_LLAMA2_13B_V1 => 14
    case META_LLAMA2_70B_V1 => 15
  }

  /** The accessor's value, `Ids[Index(a)]`; the index is always in bounds. */
  function Get(a: Accessor): (id: string)
    ensures id in Ids
  {
    Ids[Index(a)]
  }

  function IsSupported(modelId: string): bool {
    modelId in Ids
  }

  function IsStreamingSupported(modelId: string): bool {
    modelId in StreamingSupported
  }

  /** The accessors in the order of the entries they read. */
  const Accessors: seq<Accessor> := [
    ANTHROPIC_CLAUDE_INSTANT_V1, ANTHROPIC_CLAUDE_V1, ANTHROPIC_CLAUDE_V2,
    STABILITY_AI_STABLE_DIFFUSION_XL_V0, AMAZON_TITAN_TEXT_LITE_G1_V1,
    AMAZON_TITAN_TEXT_EXPRESS_G1_V1, AMAZON_TITAN_IMAGE_GENERATOR_G1_V1,
    COHERE_COMMAND_TEXT_V14, AI21_LABS_JURASSIC_V2_MID_V1, AI21_LABS_JURASSIC_V2_ULTRA_V1,
    ANTHROPIC_CLAUDE_V2_1, COHERE_COMMAND_TEXT_LIGHT_V14, META_LLAMA2_13B_CHAT_V1,
    META_LLAMA2_70B_CHAT_V1, META_LLAMA2_13B_V1, META_LLAMA2_70B_V1,
    AMAZON_TITAN_EMBEDDING_TEXT_G1_V1, AMAZON_TITAN_EMBEDDING_IMAGE_G1_V1,
    COHERE_EMBED_ENGLISH_V3, COHERE_EMBED_MULTILINGUAL_V3
  ]

  // ---------------------------------------------------------------------
  // Properties of the lists

  /** `Ids` has twenty pairwise distinct entries; every accessor indexes one
      of them, different accessors different ones, and every entry has its
      accessor. */
  lemma IdsDistinct()
    ensures |Ids| == 20 && |Accessors| == 20
    ensures forall i, j :: 0 <= i < j < |Ids| ==> Ids[i] != Ids[j]
    ensures forall a :: Index(a) < |Ids|
    ensures forall a, b :: Index(a) == Index(b) ==> a == b
    ensures forall i :: 0 <= i < |Accessors| ==> Index(Accessors[i]) == i
  {
  }

  /** Every streaming-supported id is a supported id. */
  lemma StreamingSupportedAreSupported(modelId: string)
    ensures IsStreamingSupported(modelId) ==> IsSupported(modelId)
  {
  }

  /** What the Anthropic and Stability accessors return. */
  lemma AnthropicAccessorValues()
    ensures Get(ANTHROPIC_CLAUDE_INSTANT_V1) == "anthropic.claude-instant-v1"
    ensures Get(ANTHROPIC_CLAUDE_V1) == "anthropic.claude-v1"
    ensures Get(ANTHROPIC_CLAUDE_V2) == "anthropic.claude-v2"
    ensures Get(ANTHROPIC_CLAUDE_V2_1) == "anthropic.claude-v2:1"
    ensures Get(STABILITY_AI_STABLE_DIFFUSION_XL_V0) == "stability.stable-diffusion-xl-v0"
  {
    assert Ids[0] == "anthropic.claude-instant-v1";
    assert Ids[1] == "anthropic.claude-v1";
    assert Ids[2] == "anthropic.claude-v2";
    assert Ids[10] == "anthropic.claude-v2:1";
    assert Ids[3] == "stability.stable-diffusion-xl-v0";
  }

  /** What the Amazon accessors return. */
  lemma AmazonAccessorValues()
    ensures Get(AMAZON_TITAN_TEXT_LITE_G1_V1) == "amazon.titan-text-lite-v1"
    ensures Get(AMAZON_TITAN_TEXT_EXPRESS_G1_V1) == "amazon.titan-text-express-v1"
    ensures Get(AMAZON_TITAN_IMAGE_GENERATOR_G1_V1) == "amazon.titan-image-generator-v1"
    ensures Get(AMAZON_TITAN_EMBEDDING_TEXT_G1_V1) == "amazon.titan-embed-text-v1"
    ensures Get(AMAZON_TITAN_EMBEDDING_IMAGE_G1_V1) == "amazon.titan-embed-image-v1"
  {
  }

  /** What the Cohere and AI21 Labs accessors return. */
  lemma CohereAndAi21AccessorValues()
    ensures Get(COHERE_COMMAND_TEXT_V14) == "cohere.command-text-v14"
    ensures Get(COHERE_COMMAND_TEXT_LIGHT_V14) == "cohere.command-light-text-v14"
    ensures Get(COHERE_EMBED_ENGLISH_V3) == "cohere.embed-english-v3"
    ensures Get(COHERE_EMBED_MULTILINGUAL_V3) == "cohere.embed-multilingual-v3"
    ensures Get(AI21_LABS_JURASSIC_V2_MID_V1) == "ai21.j2-mid-v1"
    ensures Get(AI21_LABS_JURASSIC_V2_ULTRA_V1) == "ai21.j2-ultra-v1"
  {
  }

  /** What the Meta accessors return. */
  lemma MetaAccessorValues()
    ensures Get(META_LLAMA2_13B_CHAT_V1) == "meta.llama2-13b-chat-v1"
    ensures Get(META_LLAMA2_70B_CHAT_V1) == "meta.llama2-70b-chat-v1"
    ensures Get(META_LLAMA2_13B_V1) == "meta.llama2-13b-v1"
    ensures Get(META_LLAMA2_70B_V1) == "meta.llama2-70b-v1"
  {
  }
}
