/** The request side of the private `Invoke*Async` methods: the model-id
    guard each applies, and the JSON payload each builds in a `JsonObject`
    before handing it to the runtime client. A supplied configuration is
    validated, then serialized, and the input is added under its key; the
    call to the service itself is not part of this model. */
module Invokers {
  import opened Wrappers
  import opened Json
  import opened Validation
  import opened ModelIds
  import Anthropic
  import Amazon
  import Cohere

  /** The exceptions a payload builder can throw. */
  datatype InvokeError =
    | UnsupportedModel(modelId: string)   // the guard's ArgumentException
    | ValidationFailed(property: string)  // Validator.ValidateObject's ValidationException
    | DuplicateKey(key: string)           // JsonObject.Add's ArgumentException
    | NullArgument(name: string)          // ArgumentNullException.ThrowIfNull

  // ---------------------------------------------------------------------
  // Model-id guards

  predicate Jurassic2Accepts(modelId: string) {
    modelId == Get(AI21_LABS_JURASSIC_V2_MID_V1) || modelId == Get(AI21_LABS_JURASSIC_V2_ULTRA_V1)
  }

  /** The same guard heads the Titan text invoker and its streaming twin. */
  predicate TitanTextAccepts(modelId: string) {
    modelId == Get(AMAZON_TITAN_TEXT_LITE_G1_V1) || modelId == Get(AMAZON_TITAN_TEXT_EXPRESS_G1_V1)
  }

  predicate ClaudeAccepts(modelId: string) {
    || modelId == Get(ANTHROPIC_CLAUDE_V1) || modelId == Get(ANTHROPIC_CLAUDE_V2)
    || modelId == Get(ANTHROPIC_CLAUDE_V2_1) || modelId == Get(ANTHROPIC_CLAUDE_INSTANT_V1)
  }

  predicate CommandAccepts(modelId: string) {
    modelId == Get(COHERE_COMMAND_TEXT_V14) || modelId == Get(COHERE_COMMAND_TEXT_LIGHT_V14)
  }

  predicate Llama2Accepts(modelId: string) {
    || modelId == Get(META_LLAMA2_13B_CHAT_V1) || modelId == Get(META_LLAMA2_70B_CHAT_V1)
    || modelId == Get(META_LLAMA2_13B_V1) || modelId == Get(META_LLAMA2_70B_V1)
  }

  predicate Llama2StreamingAccepts(modelId: string) {
    modelId == Get(META_LLAMA2_13B_CHAT_V1) || modelId == Get(META_LLAMA2_70B_CHAT_V1)
  }

  // ---------------------------------------------------------------------
  // Payload specifications

  /** A supplied configuration validated and serialized; an absent one
      contributes no property. */
  function ConfigFields<C>(config: Option<C>, checks: C -> seq<Check>, serialize: C -> Fields): (r: Result<Fields, InvokeError>)
    ensures config.None? ==> r == Success([])
    ensures config.Some? ==> (r.Success? <==> AllPass(checks(config.value)))
    ensures config.Some? && r.Success? ==> r.value == serialize(config.value)
    ensures r.Failure? ==>
      && config.Some?
      && r.error.ValidationFailed?
      && (exists i :: 0 <= i < |checks(config.value)| && !checks(config.value)[i].passes &&
                      checks(config.value)[i].property == r.error.property &&
                      AllPass(checks(config.value)[..i]))
  {
    match config
    case None => Success([])
    case Some(c) =>
      match FirstFailure(checks(c))
      case None => Success(serialize(c))
      case Some(p) => Failure(ValidationFailed(p))
  }

  /** `payload.Add(key, value)` after the steps in `base`. */
  function WithProperty(base: Result<Fields, InvokeError>, key: string, value: Json): (r: Result<Fields, InvokeError>)
    ensures base.Failure? ==> r == base
    ensures base.Success? ==> (r.Success? <==> Lookup(base.value, key).None?)
    ensures base.Success? && r.Failure? ==> r.error == DuplicateKey(key)
    ensures r.Success? ==>
      && r.value == base.value + [(key, value)]
      && Lookup(r.value, key) == Some(value)
      && (forall k :: k != key ==> Lookup(r.value, k) == Lookup(base.value, k))
      && (DistinctKeys(base.value) ==> DistinctKeys(r.value))
  {
    match base
    case Failure(e) => Failure(e)
    case Success(fs) =>
      AddSpec(fs, key, value);
      match AddProperty(fs, key, value)
      case Success(added) => Success(added)
      case Failure(k) => Failure(DuplicateKey(k))
  }

  /** A guard in front of a payload: nothing else happens for a rejected
      id. */
  function Guarded(accepted: bool, modelId: string, payload: Result<Fields, InvokeError>): Result<Fields, InvokeError> {
    if accepted then payload else Failure(UnsupportedModel(modelId))
  }

  /** `InvokeJurassic2Async`, `InvokeCommandV14Async` and both Llama 2
      invokers: the optional configuration, then the prompt. */
  function PromptPayload<C>(config: Option<C>, checks: C -> seq<Check>, serialize: C -> Fields, prompt: string): Result<Fields, InvokeError> {
    WithProperty(ConfigFields(config, checks, serialize), "prompt", JString(prompt))
  }

  /** Both Titan text invokers: the input text, then a supplied
      configuration, validated, under the key "imageGenerationConfig". */
  function TitanTextPayload<C>(modelId: string, inputText: string, config: Option<C>,
                               checks: C -> seq<Check>, serialize: C -> Fields): Result<Fields, InvokeError> {
    Guarded(TitanTextAccepts(modelId), modelId,
      match config
      case None => Success([("inputText", JString(inputText))])
      case Some(c) =>
        WithProperty(
          match ConfigFields(config, checks, serialize)
          case Failure(e) => Failure(e)
          case Success(fs) => Success([("inputText", JString(inputText))]),
          "imageGenerationConfig", JObject(serialize(c))))
  }

  /** `InvokeTitanImageGeneratorG1ForTextToImageAsync`: the task type and
      the parameters, then the image configuration when supplied, which is
      not validated. */
  function TitanImagePayload(textToImageParams: Option<Amazon.TitanImageTextToImageParams>,
                             config: Option<Amazon.TitanImageGenerationConfig>): Result<Fields, InvokeError> {
    match textToImageParams
    case None => Failure(NullArgument("textToImageParams"))
    case Some(p) =>
      var base := [("taskType", JString("TEXT_IMAGE")),
                   ("textToImageParams", JObject(Amazon.SerializeTextToImageParams(p)))];
      match config
      case None => Success(base)
      case Some(c) =>
        WithProperty(Success(base), "imageGenerationConfig", JObject(Amazon.SerializeImageGenerationConfig(c)))
  }

  /** `InvokeTitanEmbeddingsG1TextAsync`: the input text alone. */
  function TitanEmbeddingsTextPayload(inputText: string): Fields {
    [("inputText", JString(inputText))]
  }

  /** `InvokeTitanMultimodalEmbeddingsG1Async`: text and image, then a
      supplied configuration, validated, under "embeddingConfig". */
  function TitanMultimodalPayload(inputText: string, inputImage: string,
                                  config: Option<Amazon.TitanMultimodalEmbeddingConfig>): Result<Fields, InvokeError> {
    var base := [("inputText", JString(inputText)), ("inputImage", JString(inputImage))];
    match config
    case None => Success(base)
    case Some(c) =>
      match FirstFailure(Amazon.EmbeddingConfigChecks(c))
      case Some(p) => Failure(ValidationFailed(p))
      case None => WithProperty(Success(base), "embeddingConfig", JObject(Amazon.SerializeEmbeddingConfig(c)))
  }

  /** Both Claude invokers: a supplied configuration is validated, an absent
      one replaced by a new (unvalidated) one; then the prompt. */
  function ClaudePayload(modelId: string, prompt: string, config: Option<Anthropic.ClaudeTextGenerationConfig>): Result<Fields, InvokeError> {
    Guarded(ClaudeAccepts(modelId), modelId,
      var fields :=
        match config
        case None => Success(Anthropic.SerializeTextGenerationConfig(Anthropic.DefaultTextGenerationConfig))
        case Some(_) => ConfigFields(config, Anthropic.TextGenerationConfigChecks, Anthropic.SerializeTextGenerationConfig);
      WithProperty(fields, "prompt", JString(prompt)))
  }

  /** `InvokeEmbedV3Async`: a new configuration when none is supplied, always
      validated; then the texts (null when the list is null). */
  function EmbedPayload(texts: Option<seq<string>>, config: Option<Cohere.EmbedEmbeddingGenerationConfig>): Result<Fields, InvokeError> {
    var c := config.GetOr(Cohere.DefaultEmbedConfig);
    WithProperty(ConfigFields(Some(c), Cohere.EmbedConfigChecks, Cohere.SerializeEmbedConfig), "texts",
                 match texts case None => JNull case Some(ts) => JArray(Strings(ts)))
  }

  /** `InvokeCommandV14WithResponseStreamAsync`: a new configuration when
      none is supplied, `Stream` forced on, always validated; then the
      prompt. */
  function CommandStreamingPayload<C>(modelId: string, prompt: string, config: Option<C>, default: C,
                                      withStream: C -> C, checks: C -> seq<Check>, serialize: C -> Fields): Result<Fields, InvokeError> {
    Guarded(CommandAccepts(modelId), modelId,
      PromptPayload(Some(withStream(config.GetOr(default))), checks, serialize, prompt))
  }

  // ---------------------------------------------------------------------
  // The builders, each adding to a JsonObject in place

  /** The shared steps of the prompt-keyed invokers: validate and serialize
      a supplied configuration (or start from an empty object), then add the
      prompt. */
  method BuildPromptPayload<C>(config: Option<C>, checks: C -> seq<Check>, serialize: C -> Fields, prompt: string)
    returns (r: Result<Fields, InvokeError>)
    ensures r == PromptPayload(config, checks, serialize, prompt)
  {
    var initial: Fields := [];
    if config.Some? {
      var failure := FirstFailure(checks(config.value));
      if failure.Some? {
        return Failure(ValidationFailed(failure.value));
      }
      initial := serialize(config.value);
    }
    var payload := new JsonObject(initial);
    var added := payload.Add("prompt", JString(prompt));
    if added.Failure? {
      return Failure(DuplicateKey(added.error));
    }
    return Success(payload.fields);
  }

  method BuildJurassic2Payload<C>(modelId: string, prompt: string, config: Option<C>,
                                  checks: C -> seq<Check>, serialize: C -> Fields)
    returns (r: Result<Fields, InvokeError>)
    ensures r == Guarded(Jurassic2Accepts(modelId), modelId, PromptPayload(config, checks, serialize, prompt))
  {
    if !Jurassic2Accepts(modelId) {
      return Failure(UnsupportedModel(modelId));
    }
    r := BuildPromptPayload(config, checks, serialize, prompt);
  }

  method BuildCommandPayload<C>(modelId: string, prompt: string, config: Option<C>,
                                checks: C -> seq<Check>, serialize: C -> Fields)
    returns (r: Result<Fields, InvokeError>)
    ensures r == Guarded(CommandAccepts(modelId), modelId, PromptPayload(config, checks, serialize, prompt))
  {
    if !CommandAccepts(modelId) {
      return Failure(UnsupportedModel(modelId));
    }
    r := BuildPromptPayload(config, checks, serialize, prompt);
  }

  method BuildLlama2Payload<C>(modelId: string, prompt: string, config: Option<C>,
                               checks: C -> seq<Check>, serialize: C -> Fields)
    returns (r: Result<Fields, InvokeError>)
    ensures r == Guarded(Llama2Accepts(modelId), modelId, PromptPayload(config, checks, serialize, prompt))
  {
    if !Llama2Accepts(modelId) {
      return Failure(UnsupportedModel(modelId));
    }
    r := BuildPromptPayload(config, checks, serialize, prompt);
  }

  method BuildLlama2StreamingPayload<C>(modelId: string, prompt: string, config: Option<C>,
                                        checks: C -> seq<Check>, serialize: C -> Fields)
    returns (r: Result<Fields, InvokeError>)
    ensures r == Guarded(Llama2StreamingAccepts(modelId), modelId, PromptPayload(config, checks, serialize, prompt))
  {
    if !Llama2StreamingAccepts(modelId) {
      return Failure(UnsupportedModel(modelId));
    }
    r := BuildPromptPayload(config, checks, serialize, prompt);
  }

  /** The Command streaming invoker's iterator body, up to the request: it
      runs at the first `MoveNextAsync`, not when the invoker is called.
      `callerConfig` is the caller's configuration object as the iterator
      body leaves it. `Stream` is set on the object the caller passed, not on
      a copy, so a supplied configuration is left with `Stream` forced on
      once the model id is accepted; without one the caller still holds
      null, the new configuration being local. */
  method BuildCommandStreamingPayload<C>(modelId: string, prompt: string, config: Option<C>, default: C,
                                         withStream: C -> C, checks: C -> seq<Check>, serialize: C -> Fields)
    returns (r: Result<Fields, InvokeError>, callerConfig: Option<C>)
    ensures r == CommandStreamingPayload(modelId, prompt, config, default, withStream, checks, serialize)
    ensures !CommandAccepts(modelId) ==> r == Failure(UnsupportedModel(modelId)) && callerConfig == config
    ensures CommandAccepts(modelId) && config.Some? ==> callerConfig == Some(withStream(config.value))
    ensures config.None? ==> callerConfig == None
    ensures r.Success? && config.Some? ==> r.value == serialize(callerConfig.value) + [("prompt", JString(prompt))]
  {
    callerConfig := config;
    if !CommandAccepts(modelId) {
      return Failure(UnsupportedModel(modelId)), callerConfig;
    }
    var c := if config.Some? then config.value else default;
    c := withStream(c);
    if config.Some? {
      callerConfig := Some(c);
    }
    r := BuildPromptPayload(Some(c), checks, serialize, prompt);
  }

  method BuildTitanTextPayload<C>(modelId: string, inputText: string, config: Option<C>,
                                  checks: C -> seq<Check>, serialize: C -> Fields)
    returns (r: Result<Fields, InvokeError>)
    ensures r == TitanTextPayload(modelId, inputText, config, checks, serialize)
  {
    if !TitanTextAccepts(modelId) {
      return Failure(UnsupportedModel(modelId));
    }
    var payload := new JsonObject([("inputText", JString(inputText))]);
    if config.Some? {
      var failure := FirstFailure(checks(config.value));
      if failure.Some? {
        return Failure(ValidationFailed(failure.value));
      }
      var added := payload.Add("imageGenerationConfig", JObject(serialize(config.value)));
      if added.Failure? {
        return Failure(DuplicateKey(added.error));
      }
    }
    return Success(payload.fields);
  }

  method BuildTitanImagePayload(textToImageParams: Option<Amazon.TitanImageTextToImageParams>,
                                config: Option<Amazon.TitanImageGenerationConfig>)
    returns (r: Result<Fields, InvokeError>)
    ensures r == TitanImagePayload(textToImageParams, config)
  {
    if textToImageParams.None? {
      return Failure(NullArgument("textToImageParams"));
    }
    var payload := new JsonObject([("taskType", JString("TEXT_IMAGE")),
                                   ("textToImageParams", JObject(Amazon.SerializeTextToImageParams(textToImageParams.value)))]);
    if config.Some? {
      var added := payload.Add("imageGenerationConfig", JObject(Amazon.SerializeImageGenerationConfig(config.value)));
      if added.Failure? {
        return Failure(DuplicateKey(added.error));
      }
    }
    return Success(payload.fields);
  }

  method BuildTitanMultimodalPayload(inputText: string, inputImage: string,
                                     config: Option<Amazon.TitanMultimodalEmbeddingConfig>)
    returns (r: Result<Fields, InvokeError>)
    ensures r == TitanMultimodalPayload(inputText, inputImage, config)
  {
    var payload := new JsonObject([("inputText", JString(inputText)), ("inputImage", JString(inputImage))]);
    if config.Some? {
      var failure := FirstFailure(Amazon.EmbeddingConfigChecks(config.value));
      if failure.Some? {
        return Failure(ValidationFailed(failure.value));
      }
      var added := payload.Add("embeddingConfig", JObject(Amazon.SerializeEmbeddingConfig(config.value)));
      if added.Failure? {
        return Failure(DuplicateKey(added.error));
      }
    }
    return Success(payload.fields);
  }

  method BuildClaudePayload(modelId: string, prompt: string, config: Option<Anthropic.ClaudeTextGenerationConfig>)
    returns (r: Result<Fields, InvokeError>)
    ensures r == ClaudePayload(modelId, prompt, config)
  {
    if !ClaudeAccepts(modelId) {
      return Failure(UnsupportedModel(modelId));
    }
    var c := Anthropic.DefaultTextGenerationConfig;
    if config.Some? {
      var failure := FirstFailure(Anthropic.TextGenerationConfigChecks(config.value));
      if failure.Some? {
        return Failure(ValidationFailed(failure.value));
      }
      c := config.value;
    }
    var payload := new JsonObject(Anthropic.SerializeTextGenerationConfig(c));
    var added := payload.Add("prompt", JString(prompt));
    if added.Failure? {
      return Failure(DuplicateKey(added.error));
    }
    return Success(payload.fields);
  }

  method BuildEmbedPayload(texts: Option<seq<string>>, config: Option<Cohere.EmbedEmbeddingGenerationConfig>)
    returns (r: Result<Fields, InvokeError>)
    ensures r == EmbedPayload(texts, config)
  {
    var c := if config.Some? then config.value else Cohere.DefaultEmbedConfig;
    // The configuration declares no checks, so validation always passes.
    var validated := ConfigFields(Some(c), Cohere.EmbedConfigChecks, Cohere.SerializeEmbedConfig);
    var payload := new JsonObject(validated.value);
    var added := payload.Add("texts", if texts.Some? then JArray(Strings(texts.value)) else JNull);
    if added.Failure? {
      return Failure(DuplicateKey(added.error));
    }
    return Success(payload.fields);
  }
}
