# Rockhead.Extensions in Dafny

Rockhead.Extensions is a C# layer over the Amazon Bedrock runtime client.
It has invokers for AI21 Jurassic 2, Amazon Titan, Anthropic Claude, Cohere
Command and Embed, Meta Llama 2 and Stability AI Stable Diffusion XL. An
invoker checks the model id, validates an optional generation configuration,
builds a JSON payload and calls the service. The library also ships response
and configuration types for Mistral, but no Mistral invoker. Some families
also have a streaming twin. The streaming twin turns the service's pushed
event frames into a pulled sequence of chunks: a callback fills an unbounded
channel and moves an `isStreaming` flag, and a loop drains the channel.

This project models the parts that carry logic:

- **Model catalogs.** `Model.Parse`/`TryParse`/`IsSupported`/`IsStreamingSupported`
  over the seventeen records of `Model.cs` are in `ModelCatalog`. The two id
  lists and twenty indexed accessors of `ModelIds.cs` are in `ModelIds`. How
  the two catalogs disagree is in `Catalogs`.
- **Response and chunk accessors.** `GetResponse`/`GetStopReason` of every
  response type, and the six-way Claude Messages chunk union keyed by
  `"type"`, are in `Anthropic`, `Amazon`, `Cohere`, `Meta` and `MistralAI`.
  The `*Properties` modules hold the lemmas about them.
- **Configurations.** Each `[Range]`/`[AllowedValues]` attribute is a
  validity predicate and a list of named checks (`Validation`). Each
  `[JsonIgnore]` condition is a rule for when a property is written. A
  serializer and a deserializer per configuration are related by
  round-trip lemmas.
- **Invokers.** The model-id guards and the payload each private
  `Invoke*Async` builds are in `Invokers`:
  - a pure specification function per payload;
  - an imperative builder that adds to a `JsonObject` in place and is proved
    equal to that function.
- **Streaming adapters.** The four streaming adapters (Titan text, Claude,
  Command, Llama 2) are in `Streaming`. They are one `StreamingAdapter` class
  with the channel contents, the flag, the cancellation state and whether
  the loop has exited as fields:
  - `OnChunk` is the callback, one frame at a time;
  - `Next` is one turn of the consumer loop;
  - `Drain` runs the loop until it ends or waits;
  - ghost histories prove that chunks come out in the order they went in,
    each once.

Integers are unbounded and C# `float` values are reals; no arithmetic is done
on either, so no overflow or rounding is involved.

Three behaviours of the streaming code are kept as written:

- **Command stream flag.** The Command callback writes
  `isStreaming = IsFinished ?? false`
  (`AmazonBedrockRuntimeClientExtension.cs:705`). The Titan, Claude and
  Llama 2 callbacks instead clear the flag on a stop reason. So every
  unfinished Command chunk clears the flag and the finished chunk sets it.
  `StreamingProperties` shows the consequences:
  - a stream ends for good after its first unfinished chunk;
  - after the finished chunk the consumer waits.
- **End of a stream.** When the loop condition fails (245, 473, 688, 835)
  the iterator unsubscribes its callback (249, 477, 692, 839) and returns.
  No later frame reaches the callback and nothing more is yielded. The
  adapter's `detached` field records this.
- **Exceptions in the callback.** The callback is an `async void` method.
  It throws `NullReferenceException` for a frame that deserializes to null
  (262, 487, 702, 851). It throws `OperationCanceledException` from
  `WriteAsync` on a cancelled token (270, 495, 707, 859). Neither exception
  reaches the consumer loop; each is raised as an unhandled exception on
  the thread pool. The model reduces both to a `Failure` result of
  `OnChunk`, with nothing enqueued.

## Model

| member | source | states |
|---|---|---|
| ModelCatalog.Parse | src/Rockhead.Extensions/Model.cs:55-76 | success only with a record other than `NullModel` whose id is the input; any other string fails with itself (the `ArgumentException`) |
| ModelCatalog.TryParse | src/Rockhead.Extensions/Model.cs:41-53 | true exactly when `Parse` succeeds, with `Parse`'s record; otherwise false with `NullModel`, whose id is "" and which does not stream |
| ModelCatalog.ParseModelId | src/Rockhead.Extensions/Model.cs:55-74 | each of the seventeen records is what `Parse` returns for its own id |
| ModelCatalog.CatalogIsParseDomain | src/Rockhead.Extensions/Model.cs:55-76 | the catalog has seventeen records, none of them `NullModel`, and a string parses exactly when it is the id of one of them |
| ModelCatalog.ModelIdInjective | src/Rockhead.Extensions/Model.cs:7-29 | distinct records have distinct ids |
| ModelCatalog.ParseInjective | src/Rockhead.Extensions/Model.cs:55-74 | two parseable strings give the same record exactly when they are equal |
| ModelCatalog.ParseRejectsEmpty | src/Rockhead.Extensions/Model.cs:75 | `Parse("")` fails and `TryParse("")` gives false with `NullModel` |
| ModelCatalog.IsStreamingSupportedSpec | src/Rockhead.Extensions/Model.cs:31-39 | `IsSupported` is `TryParse`'s success; `IsStreamingSupported` implies it and holds exactly for the Titan Text, Claude, Command and Llama 2 records |
| ModelIds.Get | src/Rockhead.Extensions/ModelIds.cs:44-82 | every accessor returns an entry of `Ids` (its index is in bounds) |
| ModelIds.IdsDistinct | src/Rockhead.Extensions/ModelIds.cs:5-27 | `Ids` has twenty pairwise distinct entries; accessor indexes are below twenty, distinct accessors read distinct entries, and every entry has its accessor |
| ModelIds.StreamingSupportedAreSupported | src/Rockhead.Extensions/ModelIds.cs:29-42 | every id in `StreamingSupported` is in `Ids` |
| ModelIds.AnthropicAccessorValues | src/Rockhead.Extensions/ModelIds.cs:44-52 | the Claude and Stable Diffusion accessors return their intended ids, `ANTHROPIC_CLAUDE_V2_1` being `Ids[10]` = "anthropic.claude-v2:1" |
| ModelIds.AmazonAccessorValues | src/Rockhead.Extensions/ModelIds.cs:54-62 | the five Titan accessors return their intended ids |
| ModelIds.CohereAndAi21AccessorValues | src/Rockhead.Extensions/ModelIds.cs:64-74 | the Cohere and Jurassic accessors return their intended ids |
| ModelIds.MetaAccessorValues | src/Rockhead.Extensions/ModelIds.cs:76-82 | the four Llama 2 accessors return their intended ids |
| Catalogs.RecordIdListed | src/Rockhead.Extensions/ModelIds.cs:5-27 | every record except `NullModel` and Stable Diffusion XL v1 has its id in `Ids` |
| Catalogs.StreamingRecordListed | src/Rockhead.Extensions/ModelIds.cs:29-42 | every record marked streaming has its id in `StreamingSupported` |
| Catalogs.ParseableIdsAreListed | src/Rockhead.Extensions/ModelIds.cs:85-93 | an id `Model` supports is in `Ids` unless it is the Stable Diffusion XL v1 id; one `Model` reports as streaming is in `StreamingSupported` |
| Catalogs.ListedIdsParseCannotRead | src/Rockhead.Extensions/ModelIds.cs:8-22 | "anthropic.claude-v1", "stability.stable-diffusion-xl-v0" and the two base Llama 2 ids are listed by `ModelIds` (the Llama ones as streaming) but rejected by `Model.Parse` |
| Anthropic.MessagesResponseText | src/Rockhead.Extensions/Anthropic/ClaudeMessagesResponse.cs:24-27 | null exactly when the content is null or empty; a cast failure exactly when the last block is an image; otherwise the last block's text |
| Anthropic.KindOfTag | src/Rockhead.Extensions/Anthropic/IClaudeMessagesChunk.cs:11-16 | a tag selects a kind only if it is that kind's registered tag |
| AnthropicProperties.ClaudeResponseAccessors | src/Rockhead.Extensions/Anthropic/ClaudeResponse.cs:11-21 | `GetResponse` is `Completion`, `GetStopReason` is `StopReason`, and `Stop` affects neither |
| AnthropicProperties.MessagesResponseAccessors | src/Rockhead.Extensions/Anthropic/ClaudeMessagesResponse.cs:24-32 | `GetStopReason` is `StopReason` unchanged; no field but the content affects `GetResponse` |
| AnthropicProperties.ChunkTagsOneToOne | src/Rockhead.Extensions/Anthropic/IClaudeMessagesChunk.cs:10-16 | the discriminator is "type"; the six tags are pairwise distinct and map one-to-one onto the six chunk kinds; no other string selects a kind |
| AnthropicProperties.OnlyMessageDeltaStops | src/Rockhead.Extensions/Anthropic/ClaudeMessagesMessageDeltaChunk.cs:18-26 | only a message-delta chunk has a stop reason: `Delta.StopReason`, null for a null delta; its text is "" |
| AnthropicProperties.MessageDeltaIgnoresUsageAndStopSequence | src/Rockhead.Extensions/Anthropic/ClaudeMessagesMessageDeltaChunk.cs:13-31 | `Usage` and `StopSequence` affect neither accessor |
| AnthropicProperties.MessageStartText | src/Rockhead.Extensions/Anthropic/ClaudeMessagesMessageStartChunk.cs:18-26 | null for a null message or no content block; the first block's text; a cast failure for an image block; the stop reason is always null |
| AnthropicProperties.ContentBlockText | src/Rockhead.Extensions/Anthropic/ClaudeMessagesContentBlockStartChunk.cs:12-34 | content-block start answers `ContentBlock.Text` and content-block delta (ClaudeMessagesContentBlockDeltaChunk.cs:12-34) answers `Delta.Text`, null for a null block or delta, whatever `Index` and `Type`; neither has a stop reason |
| AnthropicProperties.StopChunksConstant | src/Rockhead.Extensions/Anthropic/ClaudeMessagesContentBlockStopChunk.cs:12-23 | content-block stop answers "" and null whatever its index; message stop (ClaudeMessagesMessageStopChunk.cs:12-23) answers null and null whatever its metrics |
| AnthropicProperties.LifecycleStopReason | src/Rockhead.Extensions/Anthropic/IClaudeMessagesChunk.cs:11-16 | in the six-chunk lifecycle order only the fifth chunk (message delta) can carry a stop reason, and it carries its delta's |
| AnthropicProperties.TextGenerationConfigValidation | src/Rockhead.Extensions/Anthropic/ClaudeTextGenerationConfig.cs:8-25 | validation passes exactly when temperature and top_p are null or in [0,1], top_k null or in [0,500] and max_tokens_to_sample in [0,4096] |
| AnthropicProperties.DefaultTextGenerationConfigShape | src/Rockhead.Extensions/Anthropic/ClaudeTextGenerationConfig.cs:23-25 | a new configuration is valid and serializes to `{"max_tokens_to_sample": 200}` |
| AnthropicProperties.TextGenerationConfigShape | src/Rockhead.Extensions/Anthropic/ClaudeTextGenerationConfig.cs:8-29 | null optional properties are omitted and present ones written under their JSON names; max_tokens_to_sample is always written; names are distinct and "prompt" is never written |
| AnthropicProperties.TextGenerationConfigRoundTrip | src/Rockhead.Extensions/Anthropic/ClaudeTextGenerationConfig.cs:6-30 | reading the serialized object back gives the same configuration |
| AnthropicProperties.MessagesConfigValidation | src/Rockhead.Extensions/Anthropic/ClaudeMessagesConfig.cs:28-41 | validation passes exactly when temperature and top_p are null or in [0,1] and top_k null or in [0,500] |
| AnthropicProperties.MessagesConfigShape | src/Rockhead.Extensions/Anthropic/ClaudeMessagesConfig.cs:14-45 | anthropic_version is written first as "bedrock-2023-05-31"; max_tokens and messages are always written; null system, temperature, top_p, top_k and stop_sequences are omitted |
| AnthropicProperties.ContentRoundTrip | src/Rockhead.Extensions/Anthropic/IClaudeContent.cs:11-13 | a text or image block, written with its "type" discriminator, reads back as itself |
| AnthropicProperties.MessageRoundTrip | src/Rockhead.Extensions/Anthropic/ClaudeMessage.cs:12-16 | a message whose blocks round-trip reads back as itself |
| AnthropicProperties.ContentsRoundTrip | src/Rockhead.Extensions/Anthropic/ClaudeMessage.cs:15-16 | a list of content blocks reads back as itself |
| AnthropicProperties.MessagesRoundTrip | src/Rockhead.Extensions/Anthropic/ClaudeMessagesConfig.cs:25-26 | a list of messages reads back as itself |
| AnthropicProperties.MessagesConfigRoundTrip | src/Rockhead.Extensions/Anthropic/ClaudeMessagesConfig.cs:12-46 | reading the serialized Messages configuration back gives the same configuration |
| Amazon.FirstResult | src/Rockhead.Extensions/Amazon/TitanTextResponse.cs:27 | present exactly when `Results` is non-null and non-empty, and then it is the first result |
| AmazonProperties.StreamingAccessorsIgnoreCounts | src/Rockhead.Extensions/Amazon/TitanTextStreamingResponse.cs:7-24 | the token counts and `Index` affect neither accessor |
| AmazonProperties.TextResponseFirstResult | src/Rockhead.Extensions/Amazon/TitanTextResponse.cs:25-33 | both accessors are null for null or empty `Results`, otherwise the first result's `OutputText` and `CompletionReason` |
| AmazonProperties.TextResponseIgnoresLaterResults | src/Rockhead.Extensions/Amazon/TitanTextResponse.cs:19-33 | results after the first, and the input token count, affect neither accessor |
| AmazonProperties.QualityNameRoundTrip | src/Rockhead.Extensions/Amazon/TitanImageGenerationConfig.cs:39-43 | the two quality names are distinct and read back as their member |
| AmazonProperties.ImageGenerationConfigValidation | src/Rockhead.Extensions/Amazon/TitanImageGenerationConfig.cs:8-37 | validation passes exactly when numberOfImages is in [1,5], height and width in [1,1024], cfgScale in [1,10] and seed in [0,214783647] |
| AmazonProperties.SeedBoundAsDeclared | src/Rockhead.Extensions/Amazon/TitanImageGenerationConfig.cs:34-37 | the seed bound is 214783647 as declared: 214783648 and the largest `int` 2147483647 are rejected |
| AmazonProperties.DefaultImageGenerationConfigShape | src/Rockhead.Extensions/Amazon/TitanImageGenerationConfig.cs:8-37 | a new configuration violates the numberOfImages, height, width and cfgScale ranges (numberOfImages reported) and serializes to quality and seed only |
| AmazonProperties.ImageGenerationConfigShape | src/Rockhead.Extensions/Amazon/TitanImageGenerationConfig.cs:8-37 | zero numberOfImages, height, width and cfgScale are omitted and other values written; quality (by name) and seed always |
| AmazonProperties.ValidImageGenerationConfigWritesAll | src/Rockhead.Extensions/Amazon/TitanImageGenerationConfig.cs:8-37 | a valid configuration writes all six properties in the declared order numberOfImages, quality, cfgScale, height, width, seed |
| AmazonProperties.ImageGenerationConfigRoundTrip | src/Rockhead.Extensions/Amazon/TitanImageGenerationConfig.cs:6-44 | reading the serialized object back gives the same configuration |
| AmazonProperties.TextToImageParamsShape | src/Rockhead.Extensions/Amazon/TitanImageTextToImageParams.cs:7-12 | text is always written; negativeText is omitted exactly when null |
| AmazonProperties.EmbeddingConfigAllowedValues | src/Rockhead.Extensions/Amazon/TitanMultimodalEmbeddingConfig.cs:8-10 | a length is accepted exactly when it is 256, 384 or 1024; 512 and null are rejected |
| AmazonProperties.EmbeddingConfigShape | src/Rockhead.Extensions/Amazon/TitanMultimodalEmbeddingConfig.cs:8-10 | the one property is always written under "outputEmbeddingLength", as JSON null when null, and reads back unchanged |
| CohereProperties.ReasonNames | src/Rockhead.Extensions/Cohere/CommandStreamingResponse.cs:24-31 | `Reason` has exactly four members, with pairwise distinct names that read back as the member |
| CohereProperties.CommandStopReasonSpec | src/Rockhead.Extensions/Cohere/CommandStreamingResponse.cs:38-41 | the stop reason is non-null exactly when `FinishReason` is, and is its name |
| CohereProperties.CommandAccessorsIgnoreIsFinished | src/Rockhead.Extensions/Cohere/CommandStreamingResponse.cs:8-41 | `IsFinished`, `Id`, `Prompt` and `Index` affect neither accessor |
| CohereProperties.IsFinishedIndependentOfStopReason | src/Rockhead.Extensions/Cohere/CommandStreamingResponse.cs:8-20 | a chunk can be finished without a stop reason, or carry a stop reason and not be finished |
| CohereProperties.EnumNamesRoundTrip | src/Rockhead.Extensions/Cohere/EmbedEmbeddingGenerationConfig.cs:13-28 | input types and truncate modes are written as their names and read back |
| CohereProperties.DefaultEmbedConfigShape | src/Rockhead.Extensions/Cohere/EmbedEmbeddingGenerationConfig.cs:7-11 | a new configuration has input type search_document and no truncation, and serializes to `{"input_type": "search_document"}` |
| CohereProperties.EmbedConfigShape | src/Rockhead.Extensions/Cohere/EmbedEmbeddingGenerationConfig.cs:5-29 | input_type is always written; truncate is written by name when set and omitted when null; the object reads back unchanged |
| MetaProperties.LlamaAccessorsIgnoreCounts | src/Rockhead.Extensions/Meta/LlamaResponse.cs:8-24 | the token counts affect neither accessor |
| MetaProperties.LlamaConfigValidation | src/Rockhead.Extensions/Meta/LlamaTextGenerationConfig.cs:8-21 | validation passes exactly when temperature and top_p are null or in [0,1] and max_gen_len null or in [1,2048] |
| MetaProperties.LlamaConfigShape | src/Rockhead.Extensions/Meta/LlamaTextGenerationConfig.cs:6-22 | each property is written exactly when non-null; an empty configuration serializes to {} and is valid |
| MetaProperties.LlamaConfigRoundTrip | src/Rockhead.Extensions/Meta/LlamaTextGenerationConfig.cs:6-22 | reading the serialized object back gives the same configuration |
| MistralAI.FirstOutput | src/Rockhead.Extensions/MistralAI/MistralResponse.cs:13 | present exactly when `Outputs` is non-null and non-empty, and then it is the first output |
| MistralAIProperties.MistralFirstOutput | src/Rockhead.Extensions/MistralAI/MistralResponse.cs:11-19 | both accessors are null for null or empty `Outputs`, otherwise the first output's fields; later outputs are ignored |
| MistralAIProperties.MistralConfigValidation | src/Rockhead.Extensions/MistralAI/MistralTextGenerationConfig.cs:8-30 | validation passes exactly when max_tokens is null or in [1,2048], temperature and top_p null or in [0,1], top_k null or in [1,200]; stop never matters |
| MistralAIProperties.MistralConfigShape | src/Rockhead.Extensions/MistralAI/MistralTextGenerationConfig.cs:8-31 | each of the five properties is written exactly when non-null; an empty configuration serializes to {} and is valid |
| MistralAIProperties.MistralConfigRoundTrip | src/Rockhead.Extensions/MistralAI/MistralTextGenerationConfig.cs:6-32 | reading the serialized object back gives the same configuration |
| Validation.FirstFailure | src/Rockhead.Extensions/AmazonBedrockRuntimeClientExtension.cs:39 | nothing is thrown exactly when every check passes; otherwise the reported property is one whose check fails |
| Json.JsonObject.Add | src/Rockhead.Extensions/AmazonBedrockRuntimeClientExtension.cs:44 | adding a key already present throws and leaves the object unchanged; otherwise the property is appended |
| Json.AddSpec | src/Rockhead.Extensions/AmazonBedrockRuntimeClientExtension.cs:44 | an add succeeds exactly when the key is absent, and then the key maps to the value and every other key is unchanged |
| Invokers.ConfigFields | src/Rockhead.Extensions/AmazonBedrockRuntimeClientExtension.cs:36-41 | an absent configuration gives no properties; a supplied one gives its serialization exactly when all its checks pass, else a validation failure naming a failing property |
| Invokers.WithProperty | src/Rockhead.Extensions/AmazonBedrockRuntimeClientExtension.cs:44 | an earlier failure propagates; the add fails with a duplicate key exactly when the key is present; otherwise the property is appended, other keys unchanged and names stay distinct |
| Invokers.BuildPromptPayload | src/Rockhead.Extensions/AmazonBedrockRuntimeClientExtension.cs:36-44 | the in-place builder equals the prompt-payload specification |
| Invokers.BuildJurassic2Payload | src/Rockhead.Extensions/AmazonBedrockRuntimeClientExtension.cs:30-44 | rejects ids other than the two Jurassic ids, else builds the prompt payload |
| Invokers.BuildCommandPayload | src/Rockhead.Extensions/AmazonBedrockRuntimeClientExtension.cs:546-560 | rejects ids other than the two Command ids, else builds the prompt payload |
| Invokers.BuildLlama2Payload | src/Rockhead.Extensions/AmazonBedrockRuntimeClientExtension.cs:745-759 | rejects ids other than the four Llama 2 ids, else builds the prompt payload |
| Invokers.BuildLlama2StreamingPayload | src/Rockhead.Extensions/AmazonBedrockRuntimeClientExtension.cs:805-819 | rejects ids other than the two Llama 2 chat ids, else builds the prompt payload |
| Invokers.BuildCommandStreamingPayload | src/Rockhead.Extensions/AmazonBedrockRuntimeClientExtension.cs:657-672 | equals the Command streaming payload: a new configuration when none is given, `Stream` forced on, always validated, then the prompt; a rejected id leaves the caller's configuration alone; once the id is accepted, the iterator body leaves a supplied configuration with `Stream` forced on, and it is what the payload serializes; with none, the caller still holds null |
| Invokers.BuildTitanTextPayload | src/Rockhead.Extensions/AmazonBedrockRuntimeClientExtension.cs:153-168 | equals the Titan text payload: the input text, then a validated configuration under "imageGenerationConfig" |
| Invokers.BuildTitanImagePayload | src/Rockhead.Extensions/AmazonBedrockRuntimeClientExtension.cs:88-110 | equals the Titan image payload: null parameters throw; task type and parameters, then an unvalidated configuration |
| Invokers.BuildTitanMultimodalPayload | src/Rockhead.Extensions/AmazonBedrockRuntimeClientExtension.cs:333-345 | equals the multimodal payload: text and image, then a validated configuration under "embeddingConfig" |
| Invokers.BuildClaudePayload | src/Rockhead.Extensions/AmazonBedrockRuntimeClientExtension.cs:366-382 | equals the Claude payload: a validated configuration or a new unvalidated one, then the prompt |
| Invokers.BuildEmbedPayload | src/Rockhead.Extensions/AmazonBedrockRuntimeClientExtension.cs:605-611 | equals the Embed payload: the configuration or a new one, validated, then the texts |
| InvokersProperties.Jurassic2AcceptedIds | src/Rockhead.Extensions/AmazonBedrockRuntimeClientExtension.cs:32-35 | the guard accepts exactly "ai21.j2-mid-v1" and "ai21.j2-ultra-v1" |
| InvokersProperties.TitanTextAcceptedIds | src/Rockhead.Extensions/AmazonBedrockRuntimeClientExtension.cs:155-158 | the guard (also at 216-219) accepts exactly the two Titan text ids |
| InvokersProperties.ClaudeAcceptedIds | src/Rockhead.Extensions/AmazonBedrockRuntimeClientExtension.cs:368-371 | the guard (also at 442-445) accepts exactly claude-v1, claude-v2, claude-v2:1 and claude-instant-v1 |
| InvokersProperties.CommandAcceptedIds | src/Rockhead.Extensions/AmazonBedrockRuntimeClientExtension.cs:548-551 | the guard (also at 659-662) accepts exactly the two Command ids |
| InvokersProperties.Llama2AcceptedIds | src/Rockhead.Extensions/AmazonBedrockRuntimeClientExtension.cs:747-750 | the non-streaming guard accepts exactly the four Llama 2 ids; the streaming guard exactly the two chat ids |
| InvokersProperties.Llama2StreamingNarrower | src/Rockhead.Extensions/AmazonBedrockRuntimeClientExtension.cs:807-810 | the streaming guard accepts a strict subset of the non-streaming one, rejecting the base ids that `ModelIds` lists as streaming |
| InvokersProperties.GuardsWithinCatalog | src/Rockhead.Extensions/ModelIds.cs:85-88 | every id a guard accepts is supported by `ModelIds` |
| InvokersProperties.ClaudeV1StreamsUnlisted | src/Rockhead.Extensions/AmazonBedrockRuntimeClientExtension.cs:442-445 | the Claude streaming guard accepts "anthropic.claude-v1", which `ModelIds` does not list as streaming |
| InvokersProperties.PromptPayloadSpec | src/Rockhead.Extensions/AmazonBedrockRuntimeClientExtension.cs:36-44 | a rejected id fails first; otherwise success exactly when the configuration is absent or valid and has no "prompt" property; the payload is the configuration's properties followed by the prompt |
| InvokersProperties.PromptOnlyPayload | src/Rockhead.Extensions/AmazonBedrockRuntimeClientExtension.cs:43-44 | without a configuration the payload is exactly `{"prompt": prompt}` |
| InvokersProperties.ClaudePayloadSpec | src/Rockhead.Extensions/AmazonBedrockRuntimeClientExtension.cs:372-382 | success exactly for an accepted id and an absent or valid configuration; the payload is that (or the new) configuration followed by the prompt, names distinct |
| InvokersProperties.ClaudeDefaultPayload | src/Rockhead.Extensions/AmazonBedrockRuntimeClientExtension.cs:376-382 | without a configuration the payload is `{"max_tokens_to_sample": 200, "prompt": prompt}` |
| InvokersProperties.TitanTextPayloadSpec | src/Rockhead.Extensions/AmazonBedrockRuntimeClientExtension.cs:159-168 | success exactly for an accepted id and an absent or valid configuration; the payload is the input text plus the configuration as an object under "imageGenerationConfig" |
| InvokersProperties.TitanImagePayloadSpec | src/Rockhead.Extensions/AmazonBedrockRuntimeClientExtension.cs:91-110 | null parameters throw; otherwise success, task type "TEXT_IMAGE" and parameters first, configuration under "imageGenerationConfig" when given, even an invalid new one |
| InvokersProperties.TitanMultimodalPayloadSpec | src/Rockhead.Extensions/AmazonBedrockRuntimeClientExtension.cs:335-345 | fails exactly for a supplied configuration whose length is not 256, 384 or 1024 (null included), naming OutputEmbeddingLength |
| InvokersProperties.TitanEmbeddingsTextPayloadSpec | src/Rockhead.Extensions/AmazonBedrockRuntimeClientExtension.cs:309-312 | the payload is the input text alone |
| InvokersProperties.EmbedPayloadSpec | src/Rockhead.Extensions/AmazonBedrockRuntimeClientExtension.cs:607-611 | the Embed payload never fails: the configuration (a new one by default) followed by the texts |
| InvokersProperties.CommandStreamingPayloadSpec | src/Rockhead.Extensions/AmazonBedrockRuntimeClientExtension.cs:664-672 | configurations that agree once `Stream` is forced give the same payload, the forced configuration followed by the prompt |
| Streaming.StreamingAdapter.constructor | src/Rockhead.Extensions/AmazonBedrockRuntimeClientExtension.cs:239-240 | the channel starts empty, `isStreaming` true, not cancelled, the loop not exited |
| Streaming.StreamingAdapter.OnChunk | src/Rockhead.Extensions/AmazonBedrockRuntimeClientExtension.cs:253-271 | the callback of each adapter (Titan here; Claude 481-496, Command 696-708, Llama 2 843-860): after the loop has exited and unsubscribed it (249), a frame changes nothing; otherwise a null frame throws and changes nothing, and a chunk sets the flag by the family's rule and joins the tail of the channel (or, cancelled, is dropped with a cancellation failure); chunks in = chunks out + channel |
| Streaming.StreamingAdapter.Cancel | src/Rockhead.Extensions/AmazonBedrockRuntimeClientExtension.cs:245 | cancelling the token changes nothing but the cancellation state |
| Streaming.StreamingAdapter.Next | src/Rockhead.Extensions/AmazonBedrockRuntimeClientExtension.cs:245-249 | one turn of the consumer loop (Titan here; Claude 473-477, Command 688-692, Llama 2 835-839): it ends exactly when it has ended before, or the token is cancelled, or the flag is clear and the channel empty; ending unsubscribes the callback and is final; otherwise it yields the oldest chunk, removing it, or waits on an empty channel |
| Streaming.StreamingAdapter.Drain | src/Rockhead.Extensions/AmazonBedrockRuntimeClientExtension.cs:245-249 | with no further frame, the loop yields exactly the buffered chunks in order, then ends exactly when the flag is false, or waits on an empty channel; once cancelled or exited it yields nothing and ends; it has exited exactly when it reports the end |
| StreamingProperties.ClearingRule | src/Rockhead.Extensions/AmazonBedrockRuntimeClientExtension.cs:265-268 | for Titan (and Claude 490-493, Llama 2 854-857) the new flag is the old flag and the family's stop-reason accessor reporting none |
| StreamingProperties.ClearingFlagIffNoStopReason | src/Rockhead.Extensions/AmazonBedrockRuntimeClientExtension.cs:265-268 | for Titan, Claude and Llama 2 the flag, starting true, stays set exactly while no chunk so far has a stop reason |
| StreamingProperties.ClearedFlagStaysCleared | src/Rockhead.Extensions/AmazonBedrockRuntimeClientExtension.cs:490-493 | for Titan, Claude and Llama 2 a cleared flag is never set back |
| StreamingProperties.ClearingFlagMonotone | src/Rockhead.Extensions/AmazonBedrockRuntimeClientExtension.cs:854-857 | for Titan, Claude and Llama 2 a flag cleared after a prefix of the chunks stays clear after every longer prefix |
| StreamingProperties.CommandFlagIsLastIsFinished | src/Rockhead.Extensions/AmazonBedrockRuntimeClientExtension.cs:705 | for Command the flag after each chunk is that chunk's `IsFinished`, absent counting as false, whatever came before |
| StreamingProperties.CommandRuleInverted | src/Rockhead.Extensions/AmazonBedrockRuntimeClientExtension.cs:705 | a finished Command chunk sets the flag and an unfinished one clears it, stop reason or not, the opposite of Titan |
| StreamingProperties.TitanEndsIffStopReason | src/Rockhead.Extensions/AmazonBedrockRuntimeClientExtension.cs:245-268 | a first Titan chunk is yielded, and the loop then ends exactly when the chunk's accessor reports a stop reason, and otherwise waits |
| StreamingProperties.Llama2EndsIffStopReason | src/Rockhead.Extensions/AmazonBedrockRuntimeClientExtension.cs:835-857 | a first Llama 2 chunk is yielded, and the loop then ends exactly when the chunk's accessor reports a stop reason; a chunk with every field absent does not end it |
| StreamingProperties.Llama2EndsAfterStopReason | src/Rockhead.Extensions/AmazonBedrockRuntimeClientExtension.cs:835-857 | after a Llama 2 chunk with a stop reason the loop yields both buffered chunks in order and ends |
| StreamingProperties.CommandEndsAfterFirstUnfinishedChunk | src/Rockhead.Extensions/AmazonBedrockRuntimeClientExtension.cs:688-705 | a first Command chunk not marked finished is yielded and the loop ends; a later chunk marked finished is never yielded and the loop stays ended |
| StreamingProperties.EndedIsFinal | src/Rockhead.Extensions/AmazonBedrockRuntimeClientExtension.cs:245-249 | after the loop has exited, every later turn reports the end whatever frames arrive, and the channel and what was yielded stay as they were |
| StreamingProperties.CommandWaitsAfterFinishedChunk | src/Rockhead.Extensions/AmazonBedrockRuntimeClientExtension.cs:688-705 | after the Command chunk marked finished the loop does not end but waits |
| StreamingProperties.NullFrameAndCancellation | src/Rockhead.Extensions/AmazonBedrockRuntimeClientExtension.cs:260-263 | a null frame throws; a cancelled loop yields nothing of what is buffered and ends |

## Left out

- The calls to the service (`InvokeModelAsync`, `InvokeModelWithResponseStreamAsync`, subscribing to `ChunkReceived`, `StartProcessing`) and the deserialization of responses are network and SDK plumbing. The model starts from the payload each invoker sends and from chunks already deserialized.
- The public `Invoke*Async` wrappers only pass a fixed model id to a private invoker. They are covered by the private invoker's guard and payload.
- The Stable Diffusion invoker validates and sends `StableDiffusionTextToImageParams`. That type is not part of this model.
- Concurrency: the callback and the consumer loop run as separate flows. The model treats each callback and each loop turn as one atomic step, so it does not capture the window between updating the flag and writing to the channel.
- The exceptions thrown by the callbacks escape an `async void` method. By default such an exception ends the process. The model does not capture this: `OnChunk` returns `Failure(NullReference)` or `Failure(Cancelled)` and the adapter goes on.
- Streaming.StreamingAdapter.Next: when the token is cancelled while `ReadAsync` waits, `ReadAsync` throws. That case is not modelled, because cancellation is a flag set between steps.
- The two unused debug reads of the frame bytes in the Titan and Llama 2 callbacks change nothing the consumer sees.
- System.Text.Json, `Validator.ValidateObject` and `JsonObject` are modelled only by what they do here:
  - an ordered list of properties in which `Add` rejects a present key;
  - a checked list of attribute conditions, reporting the first that fails.
- Object-level validation and the exact exception message are left out.
- `ClaudeContentConverter` is not part of the model. It is commented out on `IClaudeContent`, whose `"type"` discriminator is what the model writes.
- `float` values are reals. Bounds are compared exactly, with no single-precision rounding.
- The embedding responses' `GetResponse` formats floats and is left out.
- TitanTextGenerationConfig, CommandTextGenerationConfig, Jurassic2TextGenerationConfig and Llama2TextGenerationConfig are not part of this model. Their invokers are generic over the configuration, taking its checks and serializer as parameters.
- Invokers.BuildCommandStreamingPayload, Invokers.BuildLlama2StreamingPayload and, in their streaming use, Invokers.BuildClaudePayload and Invokers.BuildTitanTextPayload, with the guards Invokers.CommandAccepts, Invokers.Llama2StreamingAccepts, Invokers.ClaudeAccepts and Invokers.TitanTextAccepts: the four streaming invokers are `async` iterators. Their guard's `ArgumentException`, the validation, the payload and the `Stream = true` mutation run only at the first `MoveNextAsync`, and again on each new enumeration. A caller that never enumerates sees no exception and an unchanged configuration. The model treats these effects as happening once, at the call.
- Invokers.BuildCommandStreamingPayload: it shows `Stream` being forced only through a `withStream` parameter, because CommandTextGenerationConfig is not part of this model. The configuration is a value, so the change to the caller's object is returned as `callerConfig` rather than made in place, and other references to that object are not modelled.
- Llama2Response is not part of this model. Llama 2 stream chunks use the `LlamaResponse` shape, whose `GetStopReason` is `StopReason`.
- Null elements inside `Results`, `Outputs` or a content list are not modelled. The lists hold values.
- No streaming adapter for the Claude Messages chunk union exists in the code, so none is modelled, and no terminal rule is given for it.
- The integration tests run against the live service and are left out.
