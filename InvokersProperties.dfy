/** Properties of the model-id guards and the payloads the invokers build. */
module InvokersProperties {
  import opened Wrappers
  import opened Json
  import opened Validation
  import ModelIds
  import opened Invokers
  import Anthropic
  import AnthropicProperties
  import Amazon
  import AmazonProperties
  import Cohere
  import CohereProperties

  // ---------------------------------------------------------------------
  // Guards

  /** The ids each guard lets through, written out. */
  lemma Jurassic2AcceptedIds(id: string)
    ensures Jurassic2Accepts(id) <==> id == "ai21.j2-mid-v1" || id == "ai21.j2-ultra-v1"
  {
    ModelIds.CohereAndAi21AccessorValues();
  }

  lemma TitanTextAcceptedIds(id: string)
    ensures TitanTextAccepts(id) <==> id == "amazon.titan-text-lite-v1" || id == "amazon.titan-text-express-v1"
  {
    ModelIds.AmazonAccessorValues();
  }

  lemma CommandAcceptedIds(id: string)
    ensures CommandAccepts(id) <==> id == "cohere.command-text-v14" || id == "cohere.command-light-text-v14"
  {
    ModelIds.CohereAndAi21AccessorValues();
  }

  lemma ClaudeAcceptedIds(id: string)
    ensures ClaudeAccepts(id) <==>
      || id == "anthropic.claude-v1" || id == "anthropic.claude-v2"
      || id == "anthropic.claude-v2:1" || id == "anthropic.claude-instant-v1"
  {
    ModelIds.AnthropicAccessorValues();
  }

  lemma Llama2AcceptedIds(id: string)
    ensures Llama2Accepts(id) <==>
      || id == "meta.llama2-13b-chat-v1" || id == "meta.llama2-70b-chat-v1"
      || id == "meta.llama2-13b-v1" || id == "meta.llama2-70b-v1"
    ensures Llama2StreamingAccepts(id) <==> id == "meta.llama2-13b-chat-v1" || id == "meta.llama2-70b-chat-v1"
  {
    ModelIds.MetaAccessorValues();
  }

  /** The Llama 2 streaming invoker accepts only the two chat ids, a strict
      subset of the four the non-streaming invoker accepts, although the
      catalog lists the base ids as streaming-supported. */
  lemma Llama2StreamingNarrower(id: string)
    ensures Llama2StreamingAccepts(id) ==> Llama2Accepts(id)
    ensures Llama2Accepts("meta.llama2-13b-v1") && !Llama2StreamingAccepts("meta.llama2-13b-v1")
    ensures Llama2Accepts("meta.llama2-70b-v1") && !Llama2StreamingAccepts("meta.llama2-70b-v1")
    ensures ModelIds.IsStreamingSupported("meta.llama2-13b-v1") && ModelIds.IsStreamingSupported("meta.llama2-70b-v1")
  {
    Llama2AcceptedIds("meta.llama2-13b-v1");
    Llama2AcceptedIds("meta.llama2-70b-v1");
    assert ModelIds.StreamingSupported[9] == "meta.llama2-13b-v1";
    assert ModelIds.StreamingSupported[10] == "meta.llama2-70b-v1";
  }

  /** Every id a guard accepts is in the catalog's `Ids`. */
  lemma GuardsWithinCatalog(id: string)
    ensures (Jurassic2Accepts(id) || TitanTextAccepts(id) || ClaudeAccepts(id) ||
             CommandAccepts(id) || Llama2Accepts(id)) ==> ModelIds.IsSupported(id)
  {
  }

  /** The Claude streaming guard accepts "anthropic.claude-v1", which the
      catalog does not list as streaming-supported. */
  lemma ClaudeV1StreamsUnlisted()
    ensures ClaudeAccepts("anthropic.claude-v1")
    ensures !ModelIds.IsStreamingSupported("anthropic.claude-v1")
  {
    ClaudeAcceptedIds("anthropic.claude-v1");
    var s := ModelIds.StreamingSupported;
    var v1 := "anthropic.claude-v1";
    assert |s| == 11;
    assert s[1][18] != v1[18];
    forall i | 0 <= i < |s| && i != 1 ensures s[i] != v1 {
      assert |s[i]| != |v1| by {
        if i == 0 { assert |s[0]| == 27; }
        else if i == 2 { assert |s[2]| == 25; }
        else if i == 3 { assert |s[3]| == 28; }
        else if i == 4 { assert |s[4]| == 21; }
        else if i == 5 { assert |s[5]| == 23; }
        else if i == 6 { assert |s[6]| == 29; }
        else if i == 7 { assert |s[7]| == 23; }
        else if i == 8 { assert |s[8]| == 23; }
        else { assert |s[i]| == 18; }
      }
    }
  }

  // ---------------------------------------------------------------------
  // Prompt-keyed payloads (Jurassic 2, Command, Llama 2)

  /** The payload is the serialized configuration (or {}) with the prompt
      appended; it fails only on a violated check or when the serialized
      configuration already has a "prompt" property, and a rejected id
      short-circuits both. */
  lemma PromptPayloadSpec<C>(accepted: bool, modelId: string, config: Option<C>,
                             checks: C -> seq<Check>, serialize: C -> Fields, prompt: string)
    ensures var r := Guarded(accepted, modelId, PromptPayload(config, checks, serialize, prompt));
      var base := if config.Some? then serialize(config.value) else [];
      && (!accepted ==> r == Failure(UnsupportedModel(modelId)))
      && (accepted ==>
           (r.Success? <==> (config.None? || AllPass(checks(config.value))) && Lookup(base, "prompt").None?))
      && (r.Success? ==> r.value == base + [("prompt", JString(prompt))])
      && (r.Success? ==> Lookup(r.value, "prompt") == Some(JString(prompt)))
  {
  }

  /** Without a configuration the payload is exactly {"prompt": prompt}. */
  lemma PromptOnlyPayload<C>(checks: C -> seq<Check>, serialize: C -> Fields, prompt: string)
    ensures PromptPayload(None, checks, serialize, prompt) == Success([("prompt", JString(prompt))])
  {
    var empty: Fields := [];
    assert empty + [("prompt", JString(prompt))] == [("prompt", JString(prompt))];
  }

  // ---------------------------------------------------------------------
  // Claude

  /** A Claude payload succeeds exactly for an accepted id and a valid (or
      absent) configuration; it is the configuration's properties, the new
      configuration's when none is given, followed by the prompt, and the
      prompt never collides with a configuration property. */
  lemma ClaudePayloadSpec(modelId: string, prompt: string, config: Option<Anthropic.ClaudeTextGenerationConfig>)
    ensures var r := ClaudePayload(modelId, prompt, config);
      var c := config.GetOr(Anthropic.DefaultTextGenerationConfig);
      && (r.Success? <==> ClaudeAccepts(modelId) && (config.None? || Anthropic.TextGenerationConfigValid(config.value)))
      && (r.Failure? && ClaudeAccepts(modelId) ==> r.error.ValidationFailed?)
      && (r.Success? ==> r.value == Anthropic.SerializeTextGenerationConfig(c) + [("prompt", JString(prompt))])
      && (r.Success? ==> DistinctKeys(r.value))
      && (r.Success? ==> Lookup(r.value, "max_tokens_to_sample") == Some(JInt(c.maxTokensToSample)))
  {
    var c := config.GetOr(Anthropic.DefaultTextGenerationConfig);
    AnthropicProperties.TextGenerationConfigShape(c);
    if config.Some? {
      AnthropicProperties.TextGenerationConfigValidation(config.value);
    }
  }

  /** With no configuration an accepted id sends the default token budget
      and the prompt, nothing else. */
  lemma ClaudeDefaultPayload(prompt: string)
    ensures ClaudePayload("anthropic.claude-v2", prompt, None) ==
      Success([("max_tokens_to_sample", JInt(200)), ("prompt", JString(prompt))])
  {
    ClaudeAcceptedIds("anthropic.claude-v2");
    ClaudePayloadSpec("anthropic.claude-v2", prompt, None);
    AnthropicProperties.DefaultTextGenerationConfigShape();
    assert [("max_tokens_to_sample", JInt(200))] + [("prompt", JString(prompt))] ==
           [("max_tokens_to_sample", JInt(200)), ("prompt", JString(prompt))];
  }

  // ---------------------------------------------------------------------
  // Titan

  /** The Titan text payload holds the input text and, when a valid
      configuration is supplied, that configuration as a nested object under
      "imageGenerationConfig"; it never fails on the key. */
  lemma TitanTextPayloadSpec<C>(modelId: string, inputText: string, config: Option<C>,
                                checks: C -> seq<Check>, serialize: C -> Fields)
    ensures var r := TitanTextPayload(modelId, inputText, config, checks, serialize);
      && (r.Success? <==> TitanTextAccepts(modelId) && (config.None? || AllPass(checks(config.value))))
      && (r.Success? && config.None? ==> r.value == [("inputText", JString(inputText))])
      && (r.Success? && config.Some? ==>
            r.value == [("inputText", JString(inputText)), ("imageGenerationConfig", JObject(serialize(config.value)))])
  {
  }

  /** The image payload needs only the parameters: the configuration is not
      validated, so even a new configuration, which violates its own ranges,
      is sent as it is. */
  lemma TitanImagePayloadSpec(p: Amazon.TitanImageTextToImageParams, config: Option<Amazon.TitanImageGenerationConfig>)
    ensures TitanImagePayload(None, config) == Failure(NullArgument("textToImageParams"))
    ensures var r := TitanImagePayload(Some(p), config);
      && r.Success?
      && Keys(r.value)[..2] == ["taskType", "textToImageParams"]
      && Lookup(r.value, "taskType") == Some(JString("TEXT_IMAGE"))
      && Lookup(r.value, "imageGenerationConfig") ==
           (match config case None => None case Some(c) => Some(JObject(Amazon.SerializeImageGenerationConfig(c))))
    ensures TitanImagePayload(Some(p), Some(Amazon.DefaultImageGenerationConfig)).Success? &&
            !Amazon.ImageGenerationConfigValid(Amazon.DefaultImageGenerationConfig)
  {
    AmazonProperties.DefaultImageGenerationConfigShape();
    var base := [("taskType", JString("TEXT_IMAGE")),
                 ("textToImageParams", JObject(Amazon.SerializeTextToImageParams(p)))];
    assert base[1..] == [("textToImageParams", JObject(Amazon.SerializeTextToImageParams(p)))];
    assert "imageGenerationConfig"[0] != "taskType"[0];
    assert "imageGenerationConfig"[0] != "textToImageParams"[0];
    assert Lookup(base[1..][1..], "imageGenerationConfig").None?;
    assert Lookup(base[1..], "imageGenerationConfig").None?;
    assert Lookup(base, "imageGenerationConfig").None?;
    assert Lookup(base, "taskType") == Some(JString("TEXT_IMAGE"));
  }

  /** The multimodal payload fails exactly for a supplied configuration
      whose length is not 256, 384 or 1024, a null length included. */
  lemma TitanMultimodalPayloadSpec(inputText: string, inputImage: string, config: Option<Amazon.TitanMultimodalEmbeddingConfig>)
    ensures var r := TitanMultimodalPayload(inputText, inputImage, config);
      && (r.Success? <==> config.None? || Amazon.EmbeddingConfigValid(config.value))
      && (r.Failure? ==> r.error == ValidationFailed("OutputEmbeddingLength"))
      && (r.Success? && config.Some? ==>
            r.value == [("inputText", JString(inputText)), ("inputImage", JString(inputImage)),
                        ("embeddingConfig", JObject([("outputEmbeddingLength", JInt(config.value.outputEmbeddingLength.value))]))])
  {
  }

  /** The text embedding payload carries nothing but the input text. */
  lemma TitanEmbeddingsTextPayloadSpec(inputText: string)
    ensures Lookup(TitanEmbeddingsTextPayload(inputText), "inputText") == Some(JString(inputText))
    ensures Keys(TitanEmbeddingsTextPayload(inputText)) == ["inputText"]
  {
  }

  // ---------------------------------------------------------------------
  // Cohere

  /** The Embed payload never fails: the configuration (a new one when none
      is given) followed by the texts. */
  lemma EmbedPayloadSpec(texts: seq<string>, config: Option<Cohere.EmbedEmbeddingGenerationConfig>)
    ensures var r := EmbedPayload(Some(texts), config);
      && r.Success?
      && r.value == Cohere.SerializeEmbedConfig(config.GetOr(Cohere.DefaultEmbedConfig)) + [("texts", JArray(Strings(texts)))]
    ensures EmbedPayload(Some(texts), None) ==
      Success([("input_type", JString("search_document")), ("texts", JArray(Strings(texts)))])
  {
    CohereProperties.EmbedConfigShape(config.GetOr(Cohere.DefaultEmbedConfig));
    CohereProperties.EmbedConfigShape(Cohere.DefaultEmbedConfig);
    CohereProperties.DefaultEmbedConfigShape();
    assert [("input_type", JString("search_document"))] + [("texts", JArray(Strings(texts)))] ==
           [("input_type", JString("search_document")), ("texts", JArray(Strings(texts)))];
  }

  /** The Command streaming payload always serializes the configuration with
      streaming forced on, so two configurations that agree once `Stream`
      is forced give the same payload. */
  lemma CommandStreamingPayloadSpec<C>(modelId: string, prompt: string, c1: Option<C>, c2: Option<C>, default: C,
                                       withStream: C -> C, checks: C -> seq<Check>, serialize: C -> Fields)
    requires withStream(c1.GetOr(default)) == withStream(c2.GetOr(default))
    ensures CommandStreamingPayload(modelId, prompt, c1, default, withStream, checks, serialize) ==
            CommandStreamingPayload(modelId, prompt, c2, default, withStream, checks, serialize)
    ensures var r := CommandStreamingPayload(modelId, prompt, c1, default, withStream, checks, serialize);
      r.Success? ==> r.value == serialize(withStream(c1.GetOr(default))) + [("prompt", JString(prompt))]
  {
  }
}
