/** How the two model catalogs of the library relate: the record catalog of
    Model.cs and the string lists of ModelIds.cs were written separately and
    do not list the same ids. */
module Catalogs {
  import ModelCatalog
  import ModelIds

  /** The position in `ModelIds.Ids` of each record's id (-1 for none). */
  function IdsIndex(m: ModelCatalog.Model): int {
    match m
    case NullModel => -1
    case Jurassic2MidV1 => 8
    case Jurassic2UltraV1 => 9
    case TitanTextLiteV1 => 4
    case TitanTextExpressV1 => 5
    case TitanImageGeneratorV1 => 6
    case TitanEmbedTextV1 => 16
    case TitanEmbedImageV1 => 17
    case ClaudeInstantV1 => 0
    case ClaudeV2 => 2
    case ClaudeV2_1 => 10
    case CommandTextV14 => 7
    case CommandLightTextV14 => 11
    case EmbedEnglishV3 => 18
    case EmbedMultilingualV3 => 19
    case Llama213BChatV1 => 12
    case Llama270BChatV1 => 13
    case StableDiffusionXlV1 => -1
  }

  /** Every record except `NullModel` and `StableDiffusionXlV1` has its id in
      `ModelIds.Ids`, at the position `IdsIndex` gives. */
  lemma {:induction false} RecordIdListed(m: ModelCatalog.Model)
    requires m != ModelCatalog.NullModel && m != ModelCatalog.StableDiffusionXlV1
    ensures 0 <= IdsIndex(m) < |ModelIds.Ids| && ModelIds.Ids[IdsIndex(m)] == m.ModelId()
  {
    match m
    case Jurassic2MidV1 => assert ModelIds.Ids[8] == "ai21.j2-mid-v1";
    case Jurassic2UltraV1 => assert ModelIds.Ids[9] == "ai21.j2-ultra-v1";
    case TitanTextLiteV1 => assert ModelIds.Ids[4] == "amazon.titan-text-lite-v1";
    case TitanTextExpressV1 => assert ModelIds.Ids[5] == "amazon.titan-text-express-v1";
    case TitanImageGeneratorV1 => assert ModelIds.Ids[6] == "amazon.titan-image-generator-v1";
    case TitanEmbedTextV1 => assert ModelIds.Ids[16] == "amazon.titan-embed-text-v1";
    case TitanEmbedImageV1 => assert ModelIds.Ids[17] == "amazon.titan-embed-image-v1";
    case ClaudeInstantV1 => assert ModelIds.Ids[0] == "anthropic.claude-instant-v1";
    case ClaudeV2 => assert ModelIds.Ids[2] == "anthropic.claude-v2";
    case ClaudeV2_1 => assert ModelIds.Ids[10] == "anthropic.claude-v2:1";
    case CommandTextV14 => assert ModelIds.Ids[7] == "cohere.command-text-v14";
    case CommandLightTextV14 => assert ModelIds.Ids[11] == "cohere.command-light-text-v14";
    case EmbedEnglishV3 => assert ModelIds.Ids[18] == "cohere.embed-english-v3";
    case EmbedMultilingualV3 => assert ModelIds.Ids[19] == "cohere.embed-multilingual-v3";
    case Llama213BChatV1 => assert ModelIds.Ids[12] == "meta.llama2-13b-chat-v1";
    case Llama270BChatV1 => assert ModelIds.Ids[13] == "meta.llama2-70b-chat-v1";
  }

  /** Every record `Model` marks as streaming has its id in
      `ModelIds.StreamingSupported`. */
  lemma {:induction false} StreamingRecordListed(m: ModelCatalog.Model)
    requires m.StreamingSupported()
    ensures m.ModelId() in ModelIds.StreamingSupported
  {
    match m
    case TitanTextLiteV1 => assert ModelIds.StreamingSupported[2] == m.ModelId();
    case TitanTextExpressV1 => assert ModelIds.StreamingSupported[3] == m.ModelId();
    case ClaudeInstantV1 => assert ModelIds.StreamingSupported[0] == m.ModelId();
    case ClaudeV2 => assert ModelIds.StreamingSupported[1] == m.ModelId();
    case ClaudeV2_1 => assert ModelIds.StreamingSupported[4] == m.ModelId();
    case CommandTextV14 => assert ModelIds.StreamingSupported[5] == m.ModelId();
    case CommandLightTextV14 => assert ModelIds.StreamingSupported[6] == m.ModelId();
    case Llama213BChatV1 => assert ModelIds.StreamingSupported[7] == m.ModelId();
    case Llama270BChatV1 => assert ModelIds.StreamingSupported[8] == m.ModelId();
  }

  /** Every id `Model.Parse` accepts is in `ModelIds.Ids` except
      "stability.stable-diffusion-xl-v1" (ModelIds lists the v0 model), and
      every id `Model` reports as streaming-supported `ModelIds` reports so
      too. */
  lemma ParseableIdsAreListed(modelId: string)
    ensures ModelCatalog.IsSupported(modelId) ==>
      (ModelIds.IsSupported(modelId) <==> modelId != "stability.stable-diffusion-xl-v1")
    ensures ModelCatalog.IsStreamingSupported(modelId) ==> ModelIds.IsStreamingSupported(modelId)
  {
    if ModelCatalog.IsSupported(modelId) {
      var m := ModelCatalog.Parse(modelId).value;
      if m != ModelCatalog.StableDiffusionXlV1 {
        RecordIdListed(m);
      } else {
        assert ModelIds.Ids[3] != modelId by { assert ModelIds.Ids[3][31] != modelId[31]; }
      }
      if m.StreamingSupported() {
        StreamingRecordListed(m);
      }
    }
  }

  /** Ids that `ModelIds` accepts and `Model.Parse` rejects: the Claude v1
      id, the Stable Diffusion XL v0 id and the two base (non-chat) Llama 2
      ids, the latter even reported as streaming-supported. */
  lemma ListedIdsParseCannotRead()
    ensures ModelIds.IsSupported("anthropic.claude-v1") && !ModelCatalog.IsSupported("anthropic.claude-v1")
    ensures ModelIds.IsSupported("stability.stable-diffusion-xl-v0")
         && !ModelCatalog.IsSupported("stability.stable-diffusion-xl-v0")
    ensures ModelIds.IsStreamingSupported("meta.llama2-13b-v1") && !ModelCatalog.IsSupported("meta.llama2-13b-v1")
    ensures ModelIds.IsStreamingSupported("meta.llama2-70b-v1") && !ModelCatalog.IsSupported("meta.llama2-70b-v1")
  {
  }
}
